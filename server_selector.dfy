/** The streaming-server picker under a title: which server is highlighted
    and what a press does. The parent's `onSelect` callback and the browser
    are recorded as the calls they receive. */
module ServerSelector {
  import opened Common
  import opened Tmdb

  /** The server keys shown, in `Object.keys(STREAMING_SERVERS)` order. */
  function ShownKeys(): (keys: seq<Server>)
    ensures forall s :: s in keys ==> ServerForKey(s.Key()) == Some(s)
    ensures |keys| == 5
    ensures forall i, j :: 0 <= i < j < |keys| ==> keys[i].Key() != keys[j].Key()
    ensures keys[0].Key() == "autoembed" && keys[1].Key() == "vidsrc" && keys[2].Key() == "twoembed"
    ensures keys[3].Key() == "superembed" && keys[4].Key() == "smashystream"
  {
    SERVERS
  }

  /** Every server of the table has a button. */
  lemma EveryServerShown(s: Server)
    ensures s in ShownKeys()
  {
    match s
    case AutoEmbed => assert ShownKeys()[0] == s;
    case VidSrc => assert ShownKeys()[1] == s;
    case TwoEmbed => assert ShownKeys()[2] == s;
    case SuperEmbed => assert ShownKeys()[3] == s;
    case SmashyStream => assert ShownKeys()[4] == s;
  }

  /** `activeServer`: the parent's choice when it passed a non-empty one,
      else the picker's own. */
  function ActiveServer(selectedServer: Option<string>, internalServer: Server): (r: string)
    ensures Truthy(selectedServer) ==> r == selectedServer.value
    ensures !Truthy(selectedServer) ==> r == internalServer.Key()
  {
    if Truthy(selectedServer) then selectedServer.value else internalServer.Key()
  }

  /** Without a choice from the parent exactly one button is highlighted,
      the picker's own server; with a choice, at most one is. */
  lemma OneHighlightedButton(selectedServer: Option<string>, internalServer: Server)
    ensures !Truthy(selectedServer) ==>
      forall s :: s in ShownKeys() ==> (ActiveServer(selectedServer, internalServer) == s.Key() <==> s == internalServer)
    ensures forall s, t :: (s in ShownKeys() && t in ShownKeys() &&
      ActiveServer(selectedServer, internalServer) == s.Key() &&
      ActiveServer(selectedServer, internalServer) == t.Key()) ==> s == t
  {
    forall s: Server, t: Server | s.Key() == t.Key() ensures s == t {
      var fromS := ServerForKey(s.Key());
      assert fromS == Some(s) && fromS == Some(t);
    }
  }

  /** A movie id the browser is opened for: `movieId` must be truthy, so a
      missing id and the id 0 open nothing. */
  function BrowserUrl(key: Server, movieId: Option<int>): (url: Option<string>)
    ensures url.Some? <==> movieId.Some? && movieId.value != 0
    ensures url.Some? ==> url.value == key.Url(movieId.value)
  {
    if movieId.Some? && movieId.value != 0 then Some(key.Url(movieId.value)) else None
  }

  /** Different titles open different pages of the same server. */
  lemma BrowserUrlNamesTheTitle(key: Server, a: int, b: int)
    requires a != 0 && b != 0 && BrowserUrl(key, Some(a)) == BrowserUrl(key, Some(b))
    ensures a == b
  {
    ServerUrlInjective(key, a, b);
  }

  /** The picker's state and what leaves it. */
  class Picker {
    var internalServer: Server
    /** The keys handed to the parent's `onSelect`, in order. */
    var selections: seq<Server>
    /** The URLs opened in the browser, in order. */
    var browserOpens: seq<string>

    constructor ()
      ensures internalServer == AutoEmbed && selections == [] && browserOpens == []
    {
      internalServer := AutoEmbed;
      selections := [];
      browserOpens := [];
    }

    /** `handleServerPress(key)`; `hasOnSelect` says whether the parent
        passed `onSelect`. */
    method HandleServerPress(key: Server, hasOnSelect: bool, movieId: Option<int>)
      modifies this
      ensures hasOnSelect ==> internalServer == old(internalServer) && selections == old(selections) + [key]
      ensures !hasOnSelect ==> internalServer == key && selections == old(selections)
      ensures browserOpens == old(browserOpens) + (if BrowserUrl(key, movieId).Some? then [BrowserUrl(key, movieId).value] else [])
    {
      if hasOnSelect {
        selections := selections + [key];
      } else {
        internalServer := key;
      }
      if movieId.Some? && movieId.value != 0 {
        browserOpens := browserOpens + [key.Url(movieId.value)];
      }
    }
  }
}
