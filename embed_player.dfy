/** The embedded streaming player: on the web an iframe, elsewhere a WebView
    whose navigation filter keeps the player page from being pushed away by
    clicked ads. */
module EmbedPlayer {

  /** What the player renders for the embed URL. */
  datatype Player = IFrame(src: string) | WebView(uri: string)

  /** `Platform.OS === "web"` decides the element. */
  function Render(os: string, url: string): (p: Player)
    ensures p.IFrame? <==> os == "web"
    ensures p.IFrame? ==> p.src == url
    ensures p.WebView? ==> p.uri == url
  {
    if os == "web" then IFrame(url) else WebView(url)
  }

  /** `onShouldStartLoadWithRequest` of the WebView for the embed `url`:
      whether a request for `requestUrl` reached by `navigationType` loads. */
  function ShouldStartLoad(url: string, requestUrl: string, navigationType: string): (allow: bool)
    ensures requestUrl == url ==> allow
    ensures requestUrl != url && navigationType == "click" ==> !allow
    ensures navigationType != "click" ==> allow
  {
    if requestUrl == url then true
    else if navigationType == "click" then false
    else true
  }

  /** The filter blocks exactly the clicked navigations that leave the player. */
  lemma OnlyClickAwayIsBlocked(url: string, requestUrl: string, navigationType: string)
    ensures !ShouldStartLoad(url, requestUrl, navigationType) <==> requestUrl != url && navigationType == "click"
  {
  }

  /** Whether the navigation filter applies, given how the player rendered:
      an iframe has none, so on the web every navigation proceeds. */
  function Allows(p: Player, requestUrl: string, navigationType: string): (allow: bool)
    ensures p.IFrame? ==> allow
    ensures p.WebView? ==> allow == ShouldStartLoad(p.uri, requestUrl, navigationType)
  {
    match p
    case IFrame(_) => true
    case WebView(uri) => ShouldStartLoad(uri, requestUrl, navigationType)
  }

  /** Clicks away from the player are blocked on every platform but the web. */
  lemma ClickAwayBlockedOffWeb(os: string, url: string, requestUrl: string)
    requires requestUrl != url
    ensures Allows(Render(os, url), requestUrl, "click") <==> os == "web"
  {
  }
}
