/** `show_git_url_tip`: which hint the workflow prints for a remote URL. */
module UrlTip {
  import opened Shell

  datatype Tip =
    | HttpsTip  // HTTPS may prompt for a user name and password or token
    | SshTip    // SSH needs the user's keys to be set up

  /** `url.startswith(prefix)` */
  predicate StartsWith(url: string, prefix: string)
    ensures StartsWith(url, prefix) <==> prefix <= url
  {
    |prefix| <= |url| && url[..|prefix|] == prefix
  }

  /** The tip shown for `url`: HTTPS for an `https://` URL, otherwise SSH for
      a `git@` URL, otherwise none. The two prefixes cannot both hold, so the
      order of the tests does not matter. */
  function GitUrlTip(url: string): (tip: Option<Tip>)
    ensures tip == Some(HttpsTip) <==> "https://" <= url
    ensures tip == Some(SshTip) <==> "git@" <= url
    ensures tip == None <==> !("https://" <= url) && !("git@" <= url)
  {
    if StartsWith(url, "https://") then
      assert url[0] == 'h';
      Some(HttpsTip)
    else if StartsWith(url, "git@") then Some(SshTip)
    else None
  }
}
