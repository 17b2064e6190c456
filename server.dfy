/**
  A server instance (src/server.rs, `Instance`): the two caches as fields
  that the watcher updates in place and the request handler reads.
  Threads, locks and the channel are gone: updates and requests are
  method calls made one after another.
*/
module Server {
  import opened Wrappers
  import opened Watch
  import Router

  class Instance {
    var focusCache: string
    var nearestCache: string

    /** The caches as a value. */
    function Contents(): Caches
      reads this
    {
      Caches(focusCache, nearestCache)
    }

    /** `Instance::new`: both caches hold the placeholder. */
    constructor ()
      ensures Contents() == Initial()
      ensures focusCache == Placeholder && nearestCache == Placeholder
    {
      focusCache := Placeholder;
      nearestCache := Placeholder;
    }

    /** Handling one event from the watcher: for an access event, each path
        in turn, whose read outcome is `outcomes` at the same index. */
    method ApplyEvent(isAccess: bool, paths: seq<Path>, outcomes: seq<ReadOutcome>)
      requires |outcomes| == |paths|
      modifies this
      ensures Contents() == HandleEvent(old(Contents()), Event(isAccess, paths), outcomes)
    {
      if isAccess {
        var i := 0;
        while i < |paths|
          invariant 0 <= i <= |paths|
          invariant Contents() == StorePaths(old(Contents()), paths[..i], outcomes[..i])
        {
          var p := paths[i];
          match outcomes[i] {
            case Read(content) =>
              if EndsWith(p, FocusFile) {
                focusCache := content;
              } else if EndsWith(p, NearestFile) {
                nearestCache := content;
              }
            case ReadFailed =>
          }
          assert paths[..i + 1][..i] == paths[..i];
          assert outcomes[..i + 1][..i] == outcomes[..i];
          i := i + 1;
        }
        assert paths[..i] == paths && outcomes[..i] == outcomes;
      }
    }

    /** The watcher loop over what the channel delivers, in order. */
    method Run(messages: seq<Message>)
      requires forall m <- messages :: WellFormed(m)
      modifies this
      ensures Contents() == ReceiveAll(old(Contents()), messages)
    {
      var k := 0;
      while k < |messages|
        invariant 0 <= k <= |messages|
        invariant Contents() == ReceiveAll(old(Contents()), messages[..k])
      {
        assert WellFormed(messages[k]);
        match messages[k] {
          case Delivered(e, outcomes) =>
            ApplyEvent(e.isAccess, e.paths, outcomes);
          case WatchError =>
        }
        assert messages[..k + 1][..k] == messages[..k];
        k := k + 1;
      }
      assert messages[..k] == messages;
    }

    /** The request handler: it reads the caches and changes nothing. */
    method Handle(m: Router.Method, path: string) returns (r: Router.Response)
      ensures r == Router.Route(m, path, focusCache, nearestCache)
    {
      r := Router.Route(m, path, focusCache, nearestCache);
    }
  }

  /** A client of the instance: the focus file is rewritten, one event later
      the focus path serves the new content and the other caches are untouched. */
  method FocusUpdateIsServed()
  {
    var server := new Instance();
    var path: Path := ["/", "shared", "focus.json"];
    var before := server.Contents();
    server.ApplyEvent(true, [path], [Read("{\"a\":1}")]);
    assert [path][..0] == [] && [Read("{\"a\":1}")][..0] == [];
    StorePathCases(before, path, Read("{\"a\":1}"));
    assert StorePaths(before, [], []) == before;
    assert server.focusCache == "{\"a\":1}" && server.nearestCache == Placeholder;
    Router.LiveDatasetsServeCaches(server.focusCache, server.nearestCache);
    var r := server.Handle(Router.Get, Router.BcastPrefix + "focus");
    assert r.body == "{\"a\":1}" && r.status == None;
    server.ApplyEvent(false, [path], [Read("ignored")]);
    assert server.focusCache == "{\"a\":1}";
  }
}
