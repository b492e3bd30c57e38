/**
 * The photo-show state of the server and the handlers that change or read it.
 * The state is the current image index, the last valid index, the photo list
 * of the last load and its error; every transition is announced on the
 * server-sent-events streamer, which is modelled as the log of the events
 * sent to it, in order.
 */
module Show {
  import opened Types
  import opened Decimal
  import Auth

  /** One event handed to the streamer: its SSE id, its event name and its data. */
  datatype Event = Event(id: string, event: string, data: string)

  /** `streamer.SendString("", "reset", "")`. */
  function ResetEvent(): Event { Event("", "reset", "") }

  /** `streamer.SendUint("", "set", id)`: the data is the index in decimal. */
  function SetEvent(id: uint64): (e: Event)
    ensures e.event == "set" && ParseUint(e.data) == Ok(id)
  {
    ParseFormatRoundTrip(id);
    Event("", "set", FormatUint(id))
  }

  /** One entry of the photo directory. */
  datatype Entry = Entry(name: string, isDir: bool)

  /**
   * The outcome of reading the photo directory: opening it, `Stat` and
   * `Readdir` either fail (`ScanFailed`, with the error text), or the path is
   * not a directory, or it is one and lists these entries in this order.
   */
  datatype DirScan = ScanFailed(message: string) | NotDirectory | Directory(entries: seq<Entry>)

  /** The names of the entries that are not directories, in listing order. */
  function NonDirNames(entries: seq<Entry>): seq<string>
  {
    if entries == [] then []
    else
      var last := entries[|entries| - 1];
      NonDirNames(entries[..|entries| - 1]) + (if last.isDir then [] else [last.name])
  }

  /** Filtering a concatenation filters each part, keeping their order. */
  lemma {:induction false} NonDirNamesAppend(a: seq<Entry>, b: seq<Entry>)
    ensures NonDirNames(a + b) == NonDirNames(a) + NonDirNames(b)
    decreases |b|
  {
    if b == [] {
      assert a + b == a;
    } else {
      var b' := b[..|b| - 1];
      assert (a + b)[..|a + b| - 1] == a + b';
      NonDirNamesAppend(a, b');
    }
  }

  /** A name is kept exactly when some non-directory entry carries it. */
  lemma {:induction false} NonDirNamesMembers(entries: seq<Entry>, name: string)
    ensures name in NonDirNames(entries) <==>
      exists i :: 0 <= i < |entries| && !entries[i].isDir && entries[i].name == name
  {
    if entries != [] {
      var init := entries[..|entries| - 1];
      NonDirNamesMembers(init, name);
      if name in NonDirNames(init) {
        var i :| 0 <= i < |init| && !init[i].isDir && init[i].name == name;
        assert entries[i] == init[i];
      }
      if i :| 0 <= i < |entries| && !entries[i].isDir && entries[i].name == name {
        if i < |init| { assert init[i] == entries[i]; }
      }
    }
  }

  /** There are never more names than entries, and none when every entry is a directory. */
  lemma {:induction false} NonDirNamesLength(entries: seq<Entry>)
    ensures |NonDirNames(entries)| <= |entries|
    ensures (forall i :: 0 <= i < |entries| ==> entries[i].isDir) ==> NonDirNames(entries) == []
  {
    if entries != [] {
      NonDirNamesLength(entries[..|entries| - 1]);
    }
  }

  /**
   * `uint64(n) - 1`, the last valid index for `n` photos: `n - 1`, except
   * that no photos wraps around to the largest `uint64`.
   */
  function EndIdFor(n: nat): (r: uint64)
    ensures n == 0 ==> r == MAX_UINT64
    ensures 0 < n <= UINT64_MODULUS ==> r == n - 1
  {
    WrappingSub(n % UINT64_MODULUS, 1)
  }

  /** What the master command asks for, once its form fields are read. */
  datatype Action = DoSet(id: uint64) | DoReset | RejectId(input: string, err: NumError) | RejectCmd

  /**
   * The switch of `PhotoMasterCMD` on the `cmd` field (the empty string when
   * absent) and the parse of the `id` field of a `set`.
   */
  function Dispatch(cmd: string, idText: string): (a: Action)
    ensures a.DoSet? <==> cmd == "set" && idText != [] && AllDigits(idText) && Value(idText) <= MAX_UINT64
    ensures a.DoSet? ==> AllDigits(idText) && a.id == Value(idText)
    ensures a.RejectId? ==> cmd == "set" && a.input == idText && ParseUint(idText) == Err(a.err)
    ensures a == DoReset <==> cmd == "reset"
    ensures a == RejectCmd <==> cmd != "set" && cmd != "reset"
  {
    ParseUintSpec(idText);
    if cmd == "set" then
      match ParseUint(idText)
      case Ok(id) => DoSet(id)
      case Err(e) => RejectId(idText, e)
    else if cmd == "reset" then DoReset
    else RejectCmd
  }

  /** Why a request failed, standing for the text `http.Error` writes. */
  datatype Reason =
    | BadId(input: string, err: NumError)   // the `strconv.NumError` of the `id` field
    | InvalidId                             // "invalid ID" from `setID`
    | InvalidCmd                            // "Invalid CMD"
    | Unauthorized                          // the 401 of the Basic-auth wrapper
    | LoadFailed(message: string)           // the stored load error

  /** The response of a command handler: nothing written (status 200), or an HTTP error. */
  datatype Reply = Success | HttpError(status: int, reason: Reason)

  /** The response of the photo-list handler. */
  datatype ListingReply = PhotoList(photos: seq<string>, id: uint64) | ListingFailed(status: int, reason: Reason)

  /** The configured master credentials. */
  const USERNAME: string := "gordon"
  const PASSWORD: string := "secret!"
  const USER: seq<byte> := AsciiBytes(USERNAME)
  const PASS: seq<byte> := AsciiBytes(PASSWORD)

  class ShowState {
    var imgID: uint64
    var endID: uint64
    /** The photo list of the last load (the source keeps it serialised as JSON). */
    var photos: seq<string>
    var photoErr: Option<string>
    /** Every event handed to the streamer so far. */
    var events: seq<Event>

    /**
     * The current index never exceeds the last valid one, and a failed load
     * leaves no photo list behind.
     */
    ghost predicate Valid()
      reads this
    {
      imgID <= endID && (photoErr.Some? ==> photos == [])
    }

    /** The package variables before `main` runs: all zero, nothing sent yet. */
    constructor ()
      ensures Valid()
      ensures imgID == 0 && endID == 0 && photos == [] && photoErr == None && events == []
    {
      imgID, endID, photos, photoErr, events := 0, 0, [], None, [];
    }

    /** The photo list, error and last index that a load of `scan` leaves behind. */
    twostate predicate LoadedFrom(scan: DirScan)
      reads this
    {
      match scan
      case ScanFailed(message) => photos == [] && photoErr == Some(message) && endID == old(endID)
      case NotDirectory => photos == [] && photoErr == None && endID == EndIdFor(0)
      case Directory(entries) =>
        photos == NonDirNames(entries) && photoErr == None && endID == EndIdFor(|photos|)
    }

    /** The state after `reset` with `scan`. */
    twostate predicate ResetWith(scan: DirScan)
      reads this
    {
      imgID == 0 && events == old(events) + [ResetEvent()] && LoadedFrom(scan)
    }

    /** The state after a successful `setID(id)`. */
    twostate predicate SetTo(id: uint64)
      reads this
    {
      && imgID == id && events == old(events) + [SetEvent(id)]
      && endID == old(endID) && photos == old(photos) && photoErr == old(photoErr)
    }

    /** The reply and the state after `PhotoMasterCMD` with these form fields and this directory. */
    twostate predicate Commanded(cmd: string, idText: string, scan: DirScan, reply: Reply)
      reads this
    {
      match Dispatch(cmd, idText)
      case DoSet(id) =>
        if id <= old(endID) then reply == Success && SetTo(id)
        else reply == HttpError(400, InvalidId) && unchanged(this)
      case DoReset => reply == Success && ResetWith(scan)
      case RejectId(input, e) => reply == HttpError(400, BadId(input, e)) && unchanged(this)
      case RejectCmd => reply == HttpError(500, InvalidCmd) && unchanged(this)
    }

    /**
     * `loadPhotos`: collects the names of the non-directory entries in order
     * and sets the last index from their count; a failed scan returns its
     * error and leaves the last index alone.
     */
    method LoadPhotos(scan: DirScan) returns (names: seq<string>, err: Option<string>)
      modifies this`endID
      ensures scan.ScanFailed? ==> names == [] && err == Some(scan.message) && endID == old(endID)
      ensures scan.NotDirectory? ==> names == [] && err == None && endID == EndIdFor(0)
      ensures scan.Directory? ==>
        names == NonDirNames(scan.entries) && err == None && endID == EndIdFor(|names|)
    {
      if scan.ScanFailed? {
        return [], Some(scan.message);
      }
      names := [];
      if scan.Directory? {
        var entries := scan.entries;
        var i := 0;
        while i < |entries|
          invariant 0 <= i <= |entries|
          invariant names == NonDirNames(entries[..i])
        {
          assert entries[..i + 1][..i] == entries[..i];
          if !entries[i].isDir {
            names := names + [entries[i].name];
          }
          i := i + 1;
        }
        assert entries[..i] == entries;
      }
      endID := EndIdFor(|names|);
      err := None;
    }

    /** `reset`: back to the first photo, reload the list, announce `reset`, whatever the load did. */
    method Reset(scan: DirScan)
      requires Valid()
      modifies this
      ensures Valid()
      ensures ResetWith(scan)
    {
      imgID := 0;
      photos, photoErr := LoadPhotos(scan);
      events := events + [ResetEvent()];
    }

    /** `setID`: an index past the last valid one is refused and nothing happens. */
    method SetID(id: uint64) returns (err: Option<Reason>)
      requires Valid()
      modifies this`imgID, this`events
      ensures Valid()
      ensures err.Some? <==> id > endID
      ensures err.Some? ==> err == Some(InvalidId) && unchanged(this)
      ensures err.None? ==> SetTo(id)
    {
      if id > endID {
        return Some(InvalidId);
      }
      imgID := id;
      events := events + [SetEvent(id)];
      err := None;
    }

    /**
     * `PhotoMasterCMD`: `set` with a valid in-range index moves the show,
     * `reset` resets it (reading the directory as `scan`); a bad or
     * out-of-range index is a 400 and an unknown command a 500, and neither
     * changes anything or sends an event.
     */
    method Command(cmd: string, idText: string, scan: DirScan) returns (reply: Reply)
      requires Valid()
      modifies this
      ensures Valid()
      ensures Commanded(cmd, idText, scan, reply)
    {
      match Dispatch(cmd, idText)
      case DoSet(id) =>
        var err := SetID(id);
        reply := if err.Some? then HttpError(400, err.value) else Success;
      case DoReset =>
        Reset(scan);
        reply := Success;
      case RejectId(input, e) =>
        reply := HttpError(400, BadId(input, e));
      case RejectCmd =>
        reply := HttpError(500, InvalidCmd);
    }

    /**
     * `POST /master`: the Basic-auth wrapper around `PhotoMasterCMD` with the
     * configured credentials; a refused request changes nothing.
     */
    method MasterPost(authorization: string, cmd: string, idText: string, scan: DirScan) returns (reply: Reply)
      requires Valid()
      modifies this
      ensures Valid()
      ensures Auth.BasicAuth(authorization, USER, PASS).Refuse? ==>
        reply == HttpError(401, Unauthorized) && unchanged(this)
      ensures Auth.BasicAuth(authorization, USER, PASS).Delegate? ==>
        Commanded(cmd, idText, scan, reply)
    {
      var gate := Auth.BasicAuth(authorization, USER, PASS);
      if gate.Refuse? {
        return HttpError(gate.status, Unauthorized);
      }
      reply := Command(cmd, idText, scan);
    }

    /**
     * `PhotosJSON`: a stored load error is a 500 carrying it; otherwise the
     * photo list and the current index.
     */
    method Listing() returns (r: ListingReply)
      ensures r.ListingFailed? <==> photoErr.Some?
      ensures r.ListingFailed? ==> r.status == 500 && r.reason == LoadFailed(photoErr.value)
      ensures r.PhotoList? ==> r.photos == photos && r.id == imgID
    {
      if photoErr.Some? {
        return ListingFailed(500, LoadFailed(photoErr.value));
      }
      r := PhotoList(photos, imgID);
    }
  }
}
