/** The whole-text recogniser of a Routine block and the scan that reads the
    same block piece by piece, keeping almost none of it. */
module BlockScan {
  import opened Text
  import opened RoutineBlock
  import opened ContextScan

  /** `routine_block`: what `text` is to its end. */
  function BlockEnd(text: string): Option<End> {
    match BlockMarkers(text)
    case Context(at) => ContextEnd(Pushed(FRESH, text[at..]))
    case Ended(end) => end
  }

  // ----- The scan as a value

  datatype Scan = Scan(len: nat, markers: string, context: Option<ContextState>)

  const UNREAD := Scan(0, "", None)

  /** `RoutineBlockScan::push` */
  function Read(s: Scan, more: string): Scan {
    match s.context
    case Some(context) => Scan(s.len + Bytes(more), s.markers, Some(Pushed(context, more)))
    case None =>
      var markers := s.markers + more;
      match BlockMarkers(markers)
      case Context(at) => Scan(s.len + Bytes(more), markers[..at], Some(Pushed(FRESH, markers[at..])))
      case Ended(_) => Scan(s.len + Bytes(more), markers, None)
  }

  predicate IsAlive(s: Scan) {
    match s.context
    case Some(context) => Alive(context)
    case None => BlockMarkers(s.markers) != Ended(None)
  }

  function ScanEnd(s: Scan): Option<End> {
    match s.context
    case Some(context) => ContextEnd(context)
    case None =>
      match BlockMarkers(s.markers)
      case Context(_) => None
      case Ended(end) => end
  }

  /** Bytes the scan holds. */
  function Held(s: Scan): nat {
    Bytes(s.markers) + (match s.context case Some(context) => Bytes(context.carry) case None => 0)
  }

  function ReadAll(chunks: seq<string>): Scan {
    if chunks == [] then UNREAD else Read(ReadAll(chunks[..|chunks| - 1]), chunks[|chunks| - 1])
  }

  // ----- What the scan knows

  /** The scan `s` read `text`. */
  ghost predicate HasRead(s: Scan, text: string) {
    && s.len == Bytes(text)
    && match s.context
       case None => s.markers == text && BlockMarkers(text).Ended?
       case Some(context) =>
         && s.markers <= text && BlockMarkers(text) == Context(|s.markers|)
         && Summarises(context, text[|s.markers|..])
  }

  lemma NothingRead()
    ensures HasRead(UNREAD, "")
  {
    OwnerTag();
    AsciiBytes(OWNER_MARKER);
  }

  lemma ReadKeeps(s: Scan, text: string, more: string)
    requires HasRead(s, text)
    ensures HasRead(Read(s, more), text + more)
  {
    hide BlockMarkers, Summarises, Pushed, Bytes;
    BytesConcat(text, more);
    match s.context
    case None =>
      var markers := text + more;
      if BlockMarkers(markers).Context? { OnePushSummarises(markers[BlockMarkers(markers).at..]); }
    case Some(context) =>
      var at := |s.markers|;
      ContextStable(text, more, at);
      assert (text + more)[at..] == text[at..] + more;
      PushSummarises(context, text[at..], more);
  }

  /** Whatever the chunks, the scan has read their text. */
  lemma {:induction false} ReadAllKeeps(chunks: seq<string>)
    ensures HasRead(ReadAll(chunks), Joined(chunks))
  {
    hide HasRead, Read;
    if chunks == [] {
      NothingRead();
    } else {
      ReadAllKeeps(chunks[..|chunks| - 1]);
      ReadKeeps(ReadAll(chunks[..|chunks| - 1]), Joined(chunks[..|chunks| - 1]), chunks[|chunks| - 1]);
    }
  }

  /** The scan agrees with the recogniser of the whole text it read. */
  lemma ScanIsExact(s: Scan, text: string)
    requires HasRead(s, text)
    ensures ScanEnd(s) == BlockEnd(text) && s.len == Bytes(text)
  {
    hide BlockMarkers, Summarises, Pushed, Bytes;
    match s.context
    case None =>
    case Some(context) =>
      var rest := text[|s.markers|..];
      OnePushSummarises(rest);
      SameTextSameEnd(context, Pushed(FRESH, rest), rest);
  }

  /** A scan that is dead after some text knows that no longer text is a
      block, whole or cut. */
  lemma DeadStays(s: Scan, text: string, more: string)
    requires HasRead(s, text) && text != "" && !IsAlive(s)
    ensures BlockEnd(text + more) == None
  {
    hide BlockMarkers, Summarises, Pushed, Bytes;
    match s.context
    case None =>
      DeadMarkersStay(text, more);
    case Some(context) =>
      var at := |s.markers|;
      var rest := text[at..];
      OnePushSummarises(rest);
      SameTextSameEnd(context, Pushed(FRESH, rest), rest);
      ContextStable(text, more, at);
      assert (text + more)[at..] == rest + more;
      DeadContextStays(rest, more);
  }

  /** A live scan holds little of what it read. */
  lemma HeldIsBounded(s: Scan, text: string)
    requires HasRead(s, text) && IsAlive(s)
    ensures Held(s) <= MARKERS_LIMIT + 24
  {
    hide BlockMarkers, Bytes;
    match s.context
    case None => LiveWithin(text);
    case Some(context) =>
      ContextWithin(text, |s.markers|);
      assert s.markers == text[..|s.markers|];
  }

  lemma LiveWithin(text: string)
    requires BlockMarkers(text).Ended? && BlockMarkers(text) != Ended(None)
    ensures Bytes(text) <= MARKERS_LIMIT
  {
    EndedWithin(text);
  }

  /** The scan of a text in any chunks: exact at every length, final once
      dead, small while alive. */
  lemma StreamingIsWhole(chunks: seq<string>)
    ensures ScanEnd(ReadAll(chunks)) == BlockEnd(Joined(chunks))
    ensures ReadAll(chunks).len == Bytes(Joined(chunks))
    ensures IsAlive(ReadAll(chunks)) ==> Held(ReadAll(chunks)) <= MARKERS_LIMIT + 24
    ensures !IsAlive(ReadAll(chunks)) && Joined(chunks) != "" ==>
              forall more :: BlockEnd(Joined(chunks) + more) == None
  {
    hide *;
    ReadAllKeeps(chunks);
    ScanIsExact(ReadAll(chunks), Joined(chunks));
    if IsAlive(ReadAll(chunks)) {
      HeldIsBounded(ReadAll(chunks), Joined(chunks));
    } else if Joined(chunks) != "" {
      forall more ensures BlockEnd(Joined(chunks) + more) == None {
        DeadStays(ReadAll(chunks), Joined(chunks), more);
      }
    }
  }

  // ----- The scan in place

  /** `RoutineBlockScan` */
  class RoutineBlockScan {
    var len: nat
    var markers: string
    var context: ContextReader?

    ghost function Repr(): set<object>
      reads this
    {
      if context == null then {this} else {this, context}
    }

    ghost function State(): Scan
      reads this, Repr()
    {
      Scan(len, markers, if context == null then None else Some(context.State()))
    }

    constructor ()
      ensures State() == UNREAD && fresh(Repr())
    {
      len, markers, context := 0, "", null;
    }

    method Push(more: string)
      modifies Repr()
      ensures State() == Read(old(State()), more)
      ensures fresh(Repr() - old(Repr()))
    {
      hide BlockMarkers, Pushed, Bytes;
      len := len + Bytes(more);
      if context != null {
        context.Push(more);
      } else {
        markers := markers + more;
        match BlockMarkers(markers)
        case Context(start) =>
          var reader := new ContextReader();
          reader.Push(markers[start..]);
          markers := markers[..start];
          context := reader;
        case Ended(_) =>
      }
    }

    method IsLive() returns (live: bool)
      ensures live == IsAlive(State())
    {
      if context != null {
        live := context.IsLive();
      } else {
        live := BlockMarkers(markers) != Ended(None);
      }
    }

    method End() returns (end: Option<End>)
      ensures end == ScanEnd(State())
    {
      if context != null {
        end := context.End();
      } else {
        match BlockMarkers(markers)
        case Context(_) => end := None;
        case Ended(found) => end := found;
      }
    }

    /** `start`: a scan of `text`, if it may be or become a block. */
    static method Start(text: string) returns (scan: RoutineBlockScan?)
      ensures scan != null <==> IsAlive(Read(UNREAD, text))
      ensures scan != null ==> scan.State() == Read(UNREAD, text) && fresh(scan.Repr())
    {
      scan := new RoutineBlockScan();
      scan.Push(text);
      var live := scan.IsLive();
      if !live {
        scan := null;
      }
    }
  }
}
