/** Normalisation of a protocol target token into a channel name. */
module TwitchHelpers {
  import opened Wrappers

  /**
   * Strips one leading `#`; the name is invalid when nothing is left.
   * Every handler resolves its channel through this before touching state.
   */
  function TrimChannelName(raw: string): (r: Option<string>)
    ensures r.None? <==> raw == "" || raw == "#"
    ensures r.Some? ==> r.value != "" && (raw == "#" + r.value || (raw == r.value && raw[0] != '#'))
  {
    if |raw| > 0 && raw[0] == '#' then
      (if |raw| == 1 then None else Some(raw[1..]))
    else if |raw| == 0 then None
    else Some(raw)
  }

  /** Prefixing a non-empty name with `#` and trimming it gives the name back. */
  lemma TrimHashName(name: string)
    requires name != ""
    ensures TrimChannelName("#" + name) == Some(name)
  {
    assert ("#" + name)[1..] == name;
  }
}
