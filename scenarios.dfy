/** Sequences of handler calls on one show, and what a client observes of them. */
module ShowScenarios {
  import opened Types
  import opened Show
  import Auth
  import Base64

  /**
   * A directory holding `a.jpg`, a sub-directory and `b.jpg`: after a reset
   * the list is the two files at index 0; `set 1` moves to index 1 and sends
   * one `set` event with data `1`; `set 5` is refused and changes nothing.
   */
  method TwoPhotos() returns (afterReset: ListingReply, afterSet: ListingReply, afterBadSet: ListingReply, log: seq<Event>)
    ensures afterReset == PhotoList(["a.jpg", "b.jpg"], 0)
    ensures afterSet == PhotoList(["a.jpg", "b.jpg"], 1)
    ensures afterBadSet == afterSet
    ensures log == [Event("", "reset", ""), Event("", "set", "1")]
  {
    var show := new ShowState();
    var dir := Directory([Entry("a.jpg", false), Entry("thumbs", true), Entry("b.jpg", false)]);
    var es := dir.entries;
    assert es[..1][..0] == [] && es[..2][..1] == es[..1] && es[..2] == es[..|es| - 1];
    assert NonDirNames(es[..1]) == ["a.jpg"];
    assert NonDirNames(es[..2]) == ["a.jpg"];
    assert NonDirNames(es) == ["a.jpg", "b.jpg"];
    show.Reset(dir);
    afterReset := show.Listing();
    var reply := show.Command("set", "1", dir);
    assert reply == Success;
    afterSet := show.Listing();
    reply := show.Command("set", "5", dir);
    assert reply == HttpError(400, InvalidId);
    afterBadSet := show.Listing();
    log := show.events;
  }

  /**
   * A failed reload is reported by the listing instead of the old list, keeps
   * the last index, and is forgotten by the next reload that succeeds.
   */
  method FailedReloadThenRecovery(message: string, entries: seq<Entry>)
    returns (endBefore: uint64, endAfterFailure: uint64, failed: ListingReply, recovered: ListingReply, log: seq<Event>)
    ensures endAfterFailure == endBefore
    ensures failed == ListingFailed(500, LoadFailed(message))
    ensures recovered == PhotoList(NonDirNames(entries), 0)
    ensures log == [ResetEvent(), ResetEvent(), ResetEvent()]
  {
    var show := new ShowState();
    show.Reset(Directory([Entry("a.jpg", false)]));
    endBefore := show.endID;
    show.Reset(ScanFailed(message));
    endAfterFailure := show.endID;
    failed := show.Listing();
    show.Reset(Directory(entries));
    recovered := show.Listing();
    log := show.events;
  }

  /**
   * With no photos the last index wraps around to the largest `uint64`, so
   * every `set` is accepted.
   */
  method EmptyShowAcceptsAnyId(id: uint64) returns (reply: Reply, listing: ListingReply)
    ensures reply == Success
    ensures listing == PhotoList([], id)
  {
    var show := new ShowState();
    show.Reset(Directory([]));
    reply := show.Command("set", FormatUintText(id), Directory([]));
    listing := show.Listing();
  }

  /** The decimal form an index takes in a `set` form field. */
  function FormatUintText(id: uint64): (s: string)
    ensures Show.Dispatch("set", s) == DoSet(id)
  {
    Decimal.FormatUintDigits(id);
    Decimal.FormatUint(id)
  }

  /** The configured credentials, sent as the scheme asks, are accepted. */
  lemma ConfiguredCredentialsAccepted()
    ensures Auth.BasicAuth(Auth.BASIC_PREFIX + Base64.Encode(USER + [Auth.COLON] + PASS), USER, PASS) == Auth.Delegate
  {
    assert USER == [103, 111, 114, 100, 111, 110];
    Auth.EncodedCredentialsAccepted(USER, PASS);
  }

  /** A fresh show reset to `a.jpg` and `b.jpg` and moved to the second photo. */
  method ShowAtSecondOfTwo() returns (show: ShowState)
    ensures fresh(show) && show.Valid()
    ensures show.imgID == 1 && show.endID == 1 && show.photos == ["a.jpg", "b.jpg"] && show.photoErr == None
  {
    show := new ShowState();
    var es := [Entry("a.jpg", false), Entry("b.jpg", false)];
    assert es[..1][..0] == [] && es[..|es| - 1] == es[..1];
    assert NonDirNames(es[..1]) == ["a.jpg"];
    assert NonDirNames(es) == ["a.jpg", "b.jpg"];
    show.Reset(Directory(es));
    var _ := show.SetID(1);
  }

  /** `!` is outside the base64 alphabet, so `Basic !!!!` is refused. */
  lemma NotBase64Refused()
    ensures Auth.BasicAuth("Basic !!!!", USER, PASS).Refuse?
  {
    var header := "Basic !!!!";
    assert header[..|Auth.BASIC_PREFIX|] == Auth.BASIC_PREFIX;
    assert header[|Auth.BASIC_PREFIX|..] == "!!!!";
    assert Base64.Decode("!!!!") == None;
  }

  /**
   * A header that is not base64 is refused: a `reset` sent with it leaves the
   * index, the last index, the list, the error and the event log as they were.
   */
  method MalformedAuthorization() returns (reply: Reply, changed: bool)
    ensures reply == HttpError(401, Unauthorized)
    ensures !changed
  {
    var show := ShowAtSecondOfTwo();
    var before := show.events;
    NotBase64Refused();
    reply := show.MasterPost("Basic !!!!", "reset", "", Directory([]));
    changed := || show.events != before || show.imgID != 1 || show.endID != 1
               || show.photos != ["a.jpg", "b.jpg"] || show.photoErr != None;
  }
}
