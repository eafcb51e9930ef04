/** `create_block_id_to_lines_map` of the wasm bindings: the block events that
    carry an id and a line range are written as `id:start-end` records,
    separated by ';', in event order. */
module BlockIdMap {
  import opened Common
  import opened Strings

  /** The events as this serialiser sees them: a thematic break sits on one
      line, an exited block spans a line range, and every other event is
      ignored. */
  datatype Event =
    | ThematicBreak(id: nat, line: nat)
    | ExitBlock(id: nat, startLine: nat, endLine: nat)
    | Other

  /** One serialised entry: the id, the first line and the last line. */
  datatype Entry = Entry(id: nat, start: nat, end: nat)

  /** The entry an event contributes, if any. */
  function EntryOf(ev: Event): (r: Option<Entry>)
    ensures ev.ThematicBreak? ==> r == Some(Entry(ev.id, ev.line, ev.line))
    ensures ev.ExitBlock? ==> r == Some(Entry(ev.id, ev.startLine, ev.endLine))
    ensures ev.Other? ==> r == None
  {
    match ev
    case ThematicBreak(id, line) => Some(Entry(id, line, line))
    case ExitBlock(id, startLine, endLine) => Some(Entry(id, startLine, endLine))
    case Other => None
  }

  /** The entries of the events, in event order. */
  function Entries(events: seq<Event>): (es: seq<Entry>)
    ensures |es| <= |events|
  {
    if events == [] then []
    else
      var rest := Entries(events[1..]);
      match EntryOf(events[0])
      case Some(e) => [e] + rest
      case None => rest
  }

  /** `id:start-end`, each number as a decimal numeral. */
  function Record(e: Entry): string
  {
    DecimalString(e.id) + ":" + DecimalString(e.start) + "-" + DecimalString(e.end)
  }

  function Records(es: seq<Entry>): (rs: seq<string>)
    ensures |rs| == |es|
    ensures forall i :: 0 <= i < |es| ==> rs[i] == Record(es[i])
  {
    if es == [] then [] else [Record(es[0])] + Records(es[1..])
  }

  /** The records each followed by ';', which is what the loop has built
      before the trailing separator is removed. */
  function Terminated(es: seq<Entry>): string
  {
    if es == [] then "" else Record(es[0]) + ";" + Terminated(es[1..])
  }

  /** `write_id_and_line_range`: appends one record to `target`. */
  method WriteIdAndLineRange(target: string, id: nat, rangeStart: nat, rangeEnd: nat) returns (t: string)
    ensures t == target + Record(Entry(id, rangeStart, rangeEnd))
  {
    t := target + DecimalString(id);
    t := t + ":";
    t := t + DecimalString(rangeStart);
    t := t + "-";
    t := t + DecimalString(rangeEnd);
  }

  /** `create_block_id_to_lines_map`. */
  method CreateBlockIdToLinesMap(allEvents: seq<Event>) returns (result: string)
    ensures result == Join(Records(Entries(allEvents)), ';')
  {
    result := "";
    var i := 0;
    while i < |allEvents|
      invariant 0 <= i <= |allEvents|
      invariant result + Terminated(Entries(allEvents[i..])) == Terminated(Entries(allEvents))
    {
      ghost var before := result;
      match allEvents[i] {
        case ThematicBreak(id, line) =>
          result := WriteIdAndLineRange(result, id, line, line);
          result := result + ";";
        case ExitBlock(id, startLine, endLine) =>
          result := WriteIdAndLineRange(result, id, startLine, endLine);
          result := result + ";";
        case Other =>
      }
      MapStep(allEvents, i, before, result);
      i := i + 1;
    }
    assert allEvents[i..] == [];
    TerminatedIsJoin(Entries(allEvents));
    if result != [] {
      result := result[..|result| - 1];
    }
  }

  /** The terminated form of the events' entries, one event at a time. */
  lemma TerminatedStep(events: seq<Event>)
    requires events != []
    ensures events[0].Other? ==> Terminated(Entries(events)) == Terminated(Entries(events[1..]))
    ensures !events[0].Other? ==>
      Terminated(Entries(events)) == Record(EntryOf(events[0]).value) + ";" + Terminated(Entries(events[1..]))
  {
    var rest := Entries(events[1..]);
    match EntryOf(events[0]) {
      case Some(e) =>
        assert Entries(events) == [e] + rest;
        assert ([e] + rest)[1..] == rest;
      case None =>
    }
  }

  /** One turn of the map-building loop keeps its invariant. */
  lemma MapStep(events: seq<Event>, i: nat, before: string, after: string)
    requires i < |events|
    requires before + Terminated(Entries(events[i..])) == Terminated(Entries(events))
    requires events[i].Other? ==> after == before
    requires !events[i].Other? ==> after == before + Record(EntryOf(events[i]).value) + ";"
    ensures after + Terminated(Entries(events[i + 1..])) == Terminated(Entries(events))
  {
    var ts := events[i..];
    var tail := Terminated(Entries(events[i + 1..]));
    assert ts[0] == events[i] && ts[1..] == events[i + 1..];
    TerminatedStep(ts);
    if !events[i].Other? {
      var piece := Record(EntryOf(events[i]).value) + ";";
      assert Terminated(Entries(ts)) == piece + tail;
      Regroup(before, Record(EntryOf(events[i]).value), ";", tail);
    }
  }

  lemma Regroup(a: string, b: string, c: string, d: string)
    ensures a + b + c + d == a + (b + c + d)
  {
    assert |a + b + c + d| == |a + (b + c + d)|;
  }

  /** Dropping the last character of the terminated form gives the joined form. */
  lemma {:induction false} TerminatedIsJoin(es: seq<Entry>)
    ensures es == [] ==> Terminated(es) == ""
    ensures es != [] ==> |Terminated(es)| > 0 && Terminated(es)[..|Terminated(es)| - 1] == Join(Records(es), ';')
    decreases |es|
  {
    if |es| == 1 {
      assert Records(es) == [Record(es[0])];
    } else if es != [] {
      TerminatedIsJoin(es[1..]);
      assert Records(es)[1..] == Records(es[1..]);
    }
  }

  /** The entries follow the events: those of a concatenation are the
      entries of the first part, then those of the second. */
  lemma {:induction false} EntriesAppend(a: seq<Event>, b: seq<Event>)
    ensures Entries(a + b) == Entries(a) + Entries(b)
    decreases |a|
  {
    if a != [] {
      assert (a + b)[0] == a[0] && (a + b)[1..] == a[1..] + b;
      EntriesAppend(a[1..], b);
      match EntryOf(a[0]) {
        case Some(e) =>
          assert Entries(a + b) == [e] + Entries(a[1..] + b);
          assert Entries(a) == [e] + Entries(a[1..]);
        case None =>
      }
    } else {
      assert a + b == b;
    }
  }

  /** The map is empty exactly when no event is a thematic break or an
      exited block. */
  lemma {:induction false} EmptyIffNoBlocks(events: seq<Event>)
    ensures Join(Records(Entries(events)), ';') == "" <==> forall i :: 0 <= i < |events| ==> events[i].Other?
    decreases |events|
  {
    if events != [] {
      EmptyIffNoBlocks(events[1..]);
      var es := Entries(events);
      if es != [] {
        assert |Records(es)[0]| > 0;
        assert Join(Records(es), ';')[..|Records(es)[0]|] == Records(es)[0];
      }
      assert forall i :: 1 <= i < |events| ==> events[i] == events[1..][i - 1];
    }
  }

  predicate Numeral(s: string) { |s| > 0 && AllDigits(s) }

  /** Reads `id:start-end` back. */
  function ParseRecord(r: string): (e: Option<Entry>)
    ensures e.Some? ==> |Split(r, ':')| == 2
  {
    var idAndRange := Split(r, ':');
    if |idAndRange| != 2 then None
    else
      var lines := Split(idAndRange[1], '-');
      if |lines| != 2 || !Numeral(idAndRange[0]) || !Numeral(lines[0]) || !Numeral(lines[1]) then None
      else Some(Entry(DigitsValue(idAndRange[0]), DigitsValue(lines[0]), DigitsValue(lines[1])))
  }

  function ParseRecords(rs: seq<string>): (es: Option<seq<Entry>>)
    ensures es.Some? ==> |es.value| == |rs|
  {
    if rs == [] then Some([])
    else
      match (ParseRecord(rs[0]), ParseRecords(rs[1..]))
      case (Some(e), Some(rest)) => Some([e] + rest)
      case _ => None
  }

  /** Reads a whole map back; the empty string is the empty map. */
  function ParseMap(s: string): (es: Option<seq<Entry>>)
  {
    if s == "" then Some([]) else ParseRecords(Split(s, ';'))
  }

  lemma ParseRecordOfRecord(e: Entry)
    ensures ParseRecord(Record(e)) == Some(e)
  {
    var id, st, en := DecimalString(e.id), DecimalString(e.start), DecimalString(e.end);
    var range := st + "-" + en;
    assert Record(e) == id + [':'] + range;
    assert ':' !in id && ':' !in range;
    SplitAfterPiece(id, range, ':');
    SplitNoSep(range, ':');
    assert range == st + ['-'] + en;
    SplitAfterPiece(st, en, '-');
    SplitNoSep(en, '-');
    DecimalRoundTrip(e.id);
    DecimalRoundTrip(e.start);
    DecimalRoundTrip(e.end);
  }

  lemma {:induction false} ParseRecordsOfRecords(es: seq<Entry>)
    ensures ParseRecords(Records(es)) == Some(es)
    decreases |es|
  {
    if es != [] {
      calc {
        ParseRecords(Records(es));
        ParseRecords([Record(es[0])] + Records(es[1..]));
        { ParseRecordOfRecord(es[0]);
          ParseRecordsOfRecords(es[1..]);
          ParseRecordsCons(Record(es[0]), Records(es[1..]), es[0], es[1..]); }
        Some([es[0]] + es[1..]);
        { assert [es[0]] + es[1..] == es; }
        Some(es);
      }
    }
  }

  lemma ParseRecordsCons(r: string, rs: seq<string>, e: Entry, es: seq<Entry>)
    requires ParseRecord(r) == Some(e) && ParseRecords(rs) == Some(es)
    ensures ParseRecords([r] + rs) == Some([e] + es)
  {
    assert ([r] + rs)[0] == r && ([r] + rs)[1..] == rs;
  }

  /** Splitting the output on ';', ':' and '-' and reading the numerals
      recovers every entry, in order. */
  lemma MapRoundTrip(events: seq<Event>)
    ensures ParseMap(Join(Records(Entries(events)), ';')) == Some(Entries(events))
  {
    var es := Entries(events);
    if es != [] {
      var rs := Records(es);
      forall i | 0 <= i < |rs|
        ensures ';' !in rs[i]
      {
        assert rs[i] == Record(es[i]);
      }
      SplitJoin(rs, ';');
      ParseRecordsOfRecords(es);
      assert |rs[0]| > 0;
      assert Join(rs, ';')[..|rs[0]|] == rs[0];
    }
  }
}
