/** The reference-link widget: `parseAddress`, which reads a reference such
    as `ABC.12` or `AB.thread.sub#3`, and the listener contract the widget
    offers to the code that renders a reference's content. The same
    `parseAddress` and `RefAddress` appear, character for character, in
    `RefLink/create-ref-link-component.tsx` and in `RefLink.tsx`. */
module RefLink {
  import opened Common
  import opened Strings

  datatype RefAddress =
    | PostNumber(prefix: string, postNumber: nat)
    | ThreadId(prefix: string, threadID: string, floorNumber: Option<nat>)
    | ThreadIdSub(prefix: string, threadID: string, subThreadID: string, floorNumber: Option<nat>)
    | Unknown

  predicate IsUpper(c: char) { 'A' <= c <= 'Z' }
  predicate IsLower(c: char) { 'a' <= c <= 'z' }

  /** The characters a regular-expression `.` does not match. */
  predicate IsLineTerminator(c: char) {
    c == '\n' || c == '\r' || c == '\U{2028}' || c == '\U{2029}'
  }

  predicate AllUpper(s: string) { forall i :: 0 <= i < |s| ==> IsUpper(s[i]) }
  predicate AllLower(s: string) { forall i :: 0 <= i < |s| ==> IsLower(s[i]) }
  predicate NoLineTerminator(s: string) { forall i :: 0 <= i < |s| ==> !IsLineTerminator(s[i]) }

  /** The length of the longest run of uppercase letters that starts `s`. */
  function UpperRun(s: string): (n: nat)
    ensures n <= |s| && AllUpper(s[..n])
    ensures n < |s| ==> !IsUpper(s[n])
  {
    if s == [] || !IsUpper(s[0]) then 0
    else
      var n := 1 + UpperRun(s[1..]);
      assert s[..n] == [s[0]] + s[1..][..n - 1];
      n
  }

  /** The length of the longest run of lowercase letters that starts `s`. */
  function LowerRun(s: string): (n: nat)
    ensures n <= |s| && AllLower(s[..n])
    ensures n < |s| ==> !IsLower(s[n])
  {
    if s == [] || !IsLower(s[0]) then 0
    else
      var n := 1 + LowerRun(s[1..]);
      assert s[..n] == [s[0]] + s[1..][..n - 1];
      n
  }

  /** The text `(#\d+)?` matches: nothing, or `#` and at least one digit. */
  predicate FloorForm(s: string) {
    s == "" || (s[0] == '#' && |s| > 1 && AllDigits(s[1..]))
  }

  /** The floor number a text of the floor form denotes. */
  function FloorValue(s: string): Option<nat>
    requires FloorForm(s)
  {
    if s == "" then None else Some(DigitsValue(s[1..]))
  }

  /** The optional `#` and decimal floor number that must end the content:
      `Some(None)` when there is none, `None` when the rest does not match. */
  function ParseFloor(rest: string): (r: Option<Option<nat>>)
    ensures r == Some(None) <==> rest == ""
    ensures r.Some? <==> FloorForm(rest)
    ensures r.Some? ==> r.value == FloorValue(rest)
  {
    if rest == "" then Some(None)
    else if rest[0] == '#' && |rest| > 1 && AllDigits(rest[1..]) then Some(Some(DigitsValue(rest[1..])))
    else None
  }

  /** The thread form `[a-z]+(\.[a-z]+)?(#\d+)?` over the whole content. */
  function ParseThread(prefix: string, content: string): (r: RefAddress)
    ensures r.PostNumber? == false
    ensures r.ThreadId? || r.ThreadIdSub? ==> r.prefix == prefix && |r.threadID| > 0 && AllLower(r.threadID)
    ensures r.ThreadIdSub? ==> |r.subThreadID| > 0 && AllLower(r.subThreadID)
  {
    var m := LowerRun(content);
    if m == 0 then Unknown
    else
      var threadID, rest := content[..m], content[m..];
      if rest != "" && rest[0] == '.' then
        var k := LowerRun(rest[1..]);
        if k == 0 then Unknown
        else
          match ParseFloor(rest[1..][k..])
          case Some(floor) => ThreadIdSub(prefix, threadID, rest[1..][..k], floor)
          case None => Unknown
      else
        match ParseFloor(rest)
        case Some(floor) => ThreadId(prefix, threadID, floor)
        case None => Unknown
  }

  /** `parseAddress`. The address must be an uppercase prefix, a '.', and
      content without line terminators; all-digit content is a post number,
      the thread form a thread, and anything else is unknown. */
  function ParseAddress(address: string): (r: RefAddress)
    ensures r != Unknown ==>
      var n := |r.prefix|;
      0 < n < |address| && AllUpper(r.prefix) && address[..n] == r.prefix && address[n] == '.'
        && NoLineTerminator(address[n + 1..])
    ensures r.PostNumber? ==>
      address[|r.prefix| + 1..] != "" && AllDigits(address[|r.prefix| + 1..])
        && r.postNumber == DigitsValue(address[|r.prefix| + 1..])
    ensures r.ThreadId? || r.ThreadIdSub? ==>
      !(address[|r.prefix| + 1..] != "" && AllDigits(address[|r.prefix| + 1..]))
      && r == ParseThread(r.prefix, address[|r.prefix| + 1..])
  {
    var n := UpperRun(address);
    if n == 0 || n == |address| || address[n] != '.' || !NoLineTerminator(address[n + 1..]) then Unknown
    else
      var prefix, content := address[..n], address[n + 1..];
      if content != "" && AllDigits(content) then PostNumber(prefix, DigitsValue(content))
      else ParseThread(prefix, content)
  }

  /** The floor suffix `#N`, or nothing. */
  function FloorText(floor: Option<nat>): string
  {
    if floor.Some? then "#" + DecimalString(floor.value) else ""
  }

  /** Writes an address back in the form `parseAddress` reads. */
  function FormatAddress(a: RefAddress): string
    requires a != Unknown
  {
    match a
    case PostNumber(prefix, postNumber) => prefix + "." + DecimalString(postNumber)
    case ThreadId(prefix, threadID, floor) => prefix + "." + threadID + FloorText(floor)
    case ThreadIdSub(prefix, threadID, subThreadID, floor) => prefix + "." + threadID + "." + subThreadID + FloorText(floor)
  }

  /** The addresses `FormatAddress` can write unambiguously: non-empty
      uppercase prefix, non-empty lowercase thread names. */
  predicate WellFormed(a: RefAddress) {
    match a
    case PostNumber(prefix, _) => |prefix| > 0 && AllUpper(prefix)
    case ThreadId(prefix, threadID, _) => |prefix| > 0 && AllUpper(prefix) && |threadID| > 0 && AllLower(threadID)
    case ThreadIdSub(prefix, threadID, subThreadID, _) =>
      |prefix| > 0 && AllUpper(prefix) && |threadID| > 0 && AllLower(threadID) && |subThreadID| > 0 && AllLower(subThreadID)
    case Unknown => false
  }

  /** Every address that is not unknown is well formed. */
  lemma ParsedIsWellFormed(address: string)
    ensures ParseAddress(address) != Unknown ==> WellFormed(ParseAddress(address))
  {
  }

  lemma UpperRunOfPrefix(prefix: string, rest: string)
    requires AllUpper(prefix) && (rest != "" ==> !IsUpper(rest[0]))
    ensures UpperRun(prefix + rest) == |prefix|
    decreases |prefix|
  {
    if prefix != [] {
      assert (prefix + rest)[1..] == prefix[1..] + rest;
      UpperRunOfPrefix(prefix[1..], rest);
    } else {
      assert prefix + rest == rest;
    }
  }

  lemma LowerRunOfPrefix(word: string, rest: string)
    requires AllLower(word) && (rest != "" ==> !IsLower(rest[0]))
    ensures LowerRun(word + rest) == |word|
    decreases |word|
  {
    if word != [] {
      assert (word + rest)[1..] == word[1..] + rest;
      LowerRunOfPrefix(word[1..], rest);
    } else {
      assert word + rest == rest;
    }
  }

  /** The floor suffix `FormatAddress` writes has the floor form and
      denotes the floor it was written from. */
  lemma FloorTextForm(floor: Option<nat>)
    ensures FloorForm(FloorText(floor)) && FloorValue(FloorText(floor)) == floor
  {
    if floor.Some? {
      var t := FloorText(floor);
      assert t[1..] == DecimalString(floor.value);
      DecimalRoundTrip(floor.value);
    }
  }

  /** An uppercase prefix, a '.', and content without line terminators:
      all-digit content is a post number, and any other content is read by
      the thread grammar. */
  lemma ParseAddressOf(prefix: string, content: string)
    requires |prefix| > 0 && AllUpper(prefix) && NoLineTerminator(content)
    ensures ParseAddress(prefix + "." + content) ==
      if content != "" && AllDigits(content) then PostNumber(prefix, DigitsValue(content))
      else ParseThread(prefix, content)
  {
    var s := prefix + "." + content;
    assert s == prefix + ("." + content);
    UpperRunOfPrefix(prefix, "." + content);
    assert s[..|prefix|] == prefix && s[|prefix|] == '.' && s[|prefix| + 1..] == content;
  }

  lemma ParseFormatPost(prefix: string, postNumber: nat)
    requires |prefix| > 0 && AllUpper(prefix)
    ensures ParseAddress(FormatAddress(PostNumber(prefix, postNumber))) == PostNumber(prefix, postNumber)
  {
    var d := DecimalString(postNumber);
    assert FormatAddress(PostNumber(prefix, postNumber)) == prefix + "." + d;
    DigitsNoLineTerminator(d);
    DecimalRoundTrip(postNumber);
    ParseAddressOf(prefix, d);
  }

  /** A lowercase word followed by text that does not start with a
      lowercase letter: the run is the word, and the text follows it. */
  lemma LowerWordThen(word: string, rest: string)
    requires |word| > 0 && AllLower(word) && (rest != "" ==> !IsLower(rest[0]))
    ensures LowerRun(word + rest) == |word|
    ensures (word + rest)[..|word|] == word && (word + rest)[|word|..] == rest
  {
    LowerRunOfPrefix(word, rest);
  }

  /** Every content of the form `[a-z]+(#\d+)?` is a thread. */
  lemma ParseThreadOf(prefix: string, threadID: string, rest: string)
    requires |threadID| > 0 && AllLower(threadID) && FloorForm(rest)
    ensures ParseThread(prefix, threadID + rest) == ThreadId(prefix, threadID, FloorValue(rest))
  {
    LowerWordThen(threadID, rest);
  }

  /** Every content of the form `[a-z]+\.[a-z]+(#\d+)?` is a sub-thread. */
  lemma ParseSubThreadOf(prefix: string, threadID: string, sub: string, rest: string)
    requires |threadID| > 0 && AllLower(threadID) && |sub| > 0 && AllLower(sub) && FloorForm(rest)
    ensures ParseThread(prefix, threadID + "." + sub + rest) == ThreadIdSub(prefix, threadID, sub, FloorValue(rest))
  {
    var tail := sub + rest;
    var content := threadID + ("." + tail);
    assert threadID + "." + sub + rest == content;
    LowerWordThen(threadID, "." + tail);
    assert content[|threadID|..][1..] == tail;
    LowerWordThen(sub, rest);
    ParseThreadSub(prefix, content, |threadID|, |sub|, FloorValue(rest));
  }

  /** The sub-thread branch of `ParseThread`, unfolded once. */
  lemma ParseThreadSub(prefix: string, content: string, m: nat, k: nat, floor: Option<nat>)
    requires 0 < m < |content| && LowerRun(content) == m && content[m] == '.'
    requires 0 < k && LowerRun(content[m..][1..]) == k
    requires ParseFloor(content[m..][1..][k..]) == Some(floor)
    ensures ParseThread(prefix, content) == ThreadIdSub(prefix, content[..m], content[m..][1..][..k], floor)
  {
  }

  /** A thread is read from its name followed by a text of the floor form. */
  lemma ThreadSound(prefix: string, content: string)
    ensures var r := ParseThread(prefix, content);
      r.ThreadId? ==>
        var n := |r.threadID|;
        n <= |content| && content[..n] == r.threadID
          && FloorForm(content[n..]) && r.floorNumber == FloorValue(content[n..])
  {
    var m := LowerRun(content);
    var rest := content[m..];
    if m > 0 && !(rest != "" && rest[0] == '.') && ParseFloor(rest).Some? {
      assert ParseThread(prefix, content) == ThreadId(prefix, content[..m], FloorValue(rest));
    }
  }

  /** A sub-thread is read from its two names joined by '.' and followed by
      a text of the floor form. */
  lemma SubThreadSound(prefix: string, content: string)
    ensures var r := ParseThread(prefix, content);
      r.ThreadIdSub? ==>
        var n := |r.threadID| + 1 + |r.subThreadID|;
        n <= |content| && content[..n] == r.threadID + "." + r.subThreadID
          && FloorForm(content[n..]) && r.floorNumber == FloorValue(content[n..])
  {
    var m := LowerRun(content);
    var rest := content[m..];
    if m > 0 && rest != "" && rest[0] == '.' {
      var k := LowerRun(rest[1..]);
      var tail := rest[1..][k..];
      if k > 0 && ParseFloor(tail).Some? {
        assert ParseThread(prefix, content)
          == ThreadIdSub(prefix, content[..m], rest[1..][..k], FloorValue(tail));
        DottedSlices(content, m, k);
      }
    }
  }

  /** The pieces around the '.' at `m`, cut the way `ParseThread` cuts them. */
  lemma DottedSlices(c: string, m: nat, k: nat)
    requires m + 1 + k <= |c| && c[m] == '.'
    ensures c[..m + 1 + k] == c[..m] + "." + c[m..][1..][..k]
    ensures c[m + 1 + k..] == c[m..][1..][k..]
  {
  }

  /** Conversely to `ParseThreadOf` and `ParseSubThreadOf`, a thread or
      sub-thread is read only from content of those forms: the thread
      grammar accepts exactly `[a-z]+(\.[a-z]+)?(#\d+)?`. */
  lemma ParseThreadSound(prefix: string, content: string)
    ensures var r := ParseThread(prefix, content);
      r.ThreadId? ==>
        var n := |r.threadID|;
        n <= |content| && content[..n] == r.threadID
          && FloorForm(content[n..]) && r.floorNumber == FloorValue(content[n..])
    ensures var r := ParseThread(prefix, content);
      r.ThreadIdSub? ==>
        var n := |r.threadID| + 1 + |r.subThreadID|;
        n <= |content| && content[..n] == r.threadID + "." + r.subThreadID
          && FloorForm(content[n..]) && r.floorNumber == FloorValue(content[n..])
  {
    ThreadSound(prefix, content);
    SubThreadSound(prefix, content);
  }

  lemma NoLineTerminatorAppend(a: string, b: string)
    requires NoLineTerminator(a) && NoLineTerminator(b)
    ensures NoLineTerminator(a + b)
  {
    forall i | 0 <= i < |a + b|
      ensures !IsLineTerminator((a + b)[i])
    {
      if i < |a| {
        assert (a + b)[i] == a[i];
      } else {
        assert (a + b)[i] == b[i - |a|];
      }
    }
  }

  lemma FloorTextNoLineTerminator(floor: Option<nat>)
    ensures NoLineTerminator(FloorText(floor))
  {
    if floor.Some? {
      var d := DecimalString(floor.value);
      DigitsNoLineTerminator(d);
      NoLineTerminatorAppend("#", d);
    }
  }

  lemma LowerNoLineTerminator(s: string)
    requires AllLower(s)
    ensures NoLineTerminator(s)
  {
    forall i | 0 <= i < |s|
      ensures !IsLineTerminator(s[i])
    {
      assert IsLower(s[i]);
    }
  }

  lemma DigitsNoLineTerminator(d: string)
    requires AllDigits(d)
    ensures NoLineTerminator(d)
  {
    forall i | 0 <= i < |d|
      ensures !IsLineTerminator(d[i])
    {
      assert IsDigit(d[i]);
    }
  }

  /** The content a thread address is written with has no line terminator. */
  lemma ThreadTextNoLineTerminator(t: string, f: Option<nat>)
    requires AllLower(t)
    ensures NoLineTerminator(t + FloorText(f))
  {
    LowerNoLineTerminator(t);
    FloorTextNoLineTerminator(f);
    NoLineTerminatorAppend(t, FloorText(f));
  }

  /** The content a sub-thread address is written with has no line terminator. */
  lemma SubThreadTextNoLineTerminator(t: string, sub: string, f: Option<nat>)
    requires AllLower(t) && AllLower(sub)
    ensures NoLineTerminator(t + "." + sub + FloorText(f))
  {
    LowerNoLineTerminator(t);
    LowerNoLineTerminator(sub);
    FloorTextNoLineTerminator(f);
    NoLineTerminatorAppend(t, ".");
    NoLineTerminatorAppend(t + ".", sub);
    NoLineTerminatorAppend(t + "." + sub, FloorText(f));
  }

  lemma ParseFormatThread(prefix: string, t: string, f: Option<nat>)
    requires |prefix| > 0 && AllUpper(prefix) && |t| > 0 && AllLower(t)
    ensures ParseAddress(FormatAddress(ThreadId(prefix, t, f))) == ThreadId(prefix, t, f)
  {
    var a := ThreadId(prefix, t, f);
    var content := t + FloorText(f);
    assert FormatAddress(a) == prefix + "." + content;
    ThreadTextNoLineTerminator(t, f);
    ParseAddressOf(prefix, content);
    FloorTextForm(f);
    ParseThreadOf(prefix, t, FloorText(f));
  }

  lemma ParseFormatSub(prefix: string, t: string, sub: string, f: Option<nat>)
    requires |prefix| > 0 && AllUpper(prefix) && |t| > 0 && AllLower(t) && |sub| > 0 && AllLower(sub)
    ensures ParseAddress(FormatAddress(ThreadIdSub(prefix, t, sub, f))) == ThreadIdSub(prefix, t, sub, f)
  {
    var a := ThreadIdSub(prefix, t, sub, f);
    var content := t + "." + sub + FloorText(f);
    assert FormatAddress(a) == prefix + "." + content;
    SubThreadTextNoLineTerminator(t, sub, f);
    ParseAddressOf(prefix, content);
    FloorTextForm(f);
    ParseSubThreadOf(prefix, t, sub, FloorText(f));
  }

  /** Parsing what `FormatAddress` writes gives the address back. */
  lemma ParseFormat(a: RefAddress)
    requires WellFormed(a)
    ensures ParseAddress(FormatAddress(a)) == a
  {
    match a {
      case PostNumber(prefix, n) => ParseFormatPost(prefix, n);
      case ThreadId(prefix, t, f) => ParseFormatThread(prefix, t, f);
      case ThreadIdSub(prefix, t, sub, f) => ParseFormatSub(prefix, t, sub, f);
    }
  }

  /** `"ABC.12"` is post 12 under prefix `ABC`. */
  lemma PostNumberExample()
    ensures ParseAddress("ABC.12") == PostNumber("ABC", 12)
  {
    assert DecimalString(12) == "12";
    assert "ABC.12" == "ABC" + "." + DecimalString(12);
    ParseFormatPost("ABC", 12);
  }

  /** A post number followed by a floor, or an empty content, is `unknown`. */
  lemma UnknownExamples()
    ensures ParseAddress("ABC.12#3") == Unknown
    ensures ParseAddress("ABC.") == Unknown
    ensures ParseAddress("abc.def") == Unknown
  {
    UpperRunOfPrefix("ABC", ".12#3");
    assert "ABC.12#3" == "ABC" + ".12#3";
    assert "ABC.12#3"[4..] == "12#3";
    assert !AllDigits("12#3") by { assert !IsDigit("12#3"[2]); }
    UpperRunOfPrefix("ABC", ".");
    assert "ABC." == "ABC" + ".";
  }

  /** A thread with a sub-thread and a floor. */
  lemma SubThreadExample()
    ensures ParseAddress("AB.cd.ef#12") == ThreadIdSub("AB", "cd", "ef", Some(12))
  {
    var a := ThreadIdSub("AB", "cd", "ef", Some(12));
    assert DecimalString(12) == "12";
    assert FloorText(Some(12)) == "#12";
    assert FormatAddress(a) == "AB" + "." + "cd" + "." + "ef" + "#12";
    var s := FormatAddress(a);
    assert s == "AB.cd.ef#12";
    ParseFormat(a);
    assert ParseAddress(s) == a;
  }

  /** A bare thread has no floor number. */
  lemma ThreadExample()
    ensures ParseAddress("AB.cd") == ThreadId("AB", "cd", None)
  {
    var a := ThreadId("AB", "cd", None);
    var s := FormatAddress(a);
    assert s == "AB.cd";
    ParseFormat(a);
    assert ParseAddress(s) == a;
  }

  /** What a listener registered by the content renderer was told. Listeners
      are identified by the order number the renderer gave them. */
  datatype Notice = AddressChanged(listener: nat, address: RefAddress) | CleanedUp(listener: nat)

  function ChangeNotices(listeners: seq<nat>, address: RefAddress): (ns: seq<Notice>)
    ensures |ns| == |listeners|
    ensures forall i :: 0 <= i < |ns| ==> ns[i] == AddressChanged(listeners[i], address)
  {
    if listeners == [] then [] else [AddressChanged(listeners[0], address)] + ChangeNotices(listeners[1..], address)
  }

  function CleanupNotices(listeners: seq<nat>): (ns: seq<Notice>)
    ensures |ns| == |listeners|
    ensures forall i :: 0 <= i < |ns| ==> ns[i] == CleanedUp(listeners[i])
  {
    if listeners == [] then [] else [CleanedUp(listeners[0])] + CleanupNotices(listeners[1..])
  }

  /** The mounted content of a reference-link widget: the raw address the
      parsed-address memo last saw, the two listener lists the content
      renderer filled during `onMount`, and every notice sent so far. */
  class RefContent {
    var rawAddress: string
    var changeListeners: seq<nat>
    var cleanupListeners: seq<nat>
    var notices: seq<Notice>
    var tornDown: bool

    /** `onMount`: the renderer receives the parsed initial address and
        registers its listeners; the change effect is deferred, so nobody is
        told about the initial address. */
    constructor Mount(address: string, changeRegistrations: seq<nat>, cleanupRegistrations: seq<nat>)
      ensures rawAddress == address && notices == [] && !tornDown
      ensures changeListeners == changeRegistrations && cleanupListeners == cleanupRegistrations
    {
      rawAddress := address;
      changeListeners := changeRegistrations;
      cleanupListeners := cleanupRegistrations;
      notices := [];
      tornDown := false;
    }

    /** A new `address` property. The memo re-runs only for a different
        string, and then every change listener, in registration order, gets
        the freshly parsed address. */
    method SetAddress(address: string)
      modifies this
      ensures changeListeners == old(changeListeners) && cleanupListeners == old(cleanupListeners)
      ensures tornDown == old(tornDown)
      ensures old(tornDown) || old(rawAddress) == address ==> rawAddress == old(rawAddress) && notices == old(notices)
      ensures !old(tornDown) && old(rawAddress) != address ==>
        rawAddress == address && notices == old(notices) + ChangeNotices(changeListeners, ParseAddress(address))
    {
      if tornDown || address == rawAddress {
        return;
      }
      rawAddress := address;
      var parsed := ParseAddress(rawAddress);
      var i := 0;
      while i < |changeListeners|
        invariant 0 <= i <= |changeListeners|
        invariant notices == old(notices) + ChangeNotices(changeListeners[..i], parsed)
        invariant changeListeners == old(changeListeners) && cleanupListeners == old(cleanupListeners)
        invariant rawAddress == address && tornDown == old(tornDown) && parsed == ParseAddress(address)
      {
        notices := notices + [AddressChanged(changeListeners[i], parsed)];
        i := i + 1;
        assert changeListeners[..i] == changeListeners[..i - 1] + [changeListeners[i - 1]];
        ChangeNoticesAppend(changeListeners[..i - 1], changeListeners[i - 1], parsed);
      }
      assert changeListeners[..i] == changeListeners;
    }

    /** `onCleanup`: every cleanup listener is called once, in registration
        order, and the change listeners are not called any more. */
    method Teardown()
      modifies this
      ensures rawAddress == old(rawAddress) && changeListeners == old(changeListeners)
      ensures cleanupListeners == old(cleanupListeners) && tornDown
      ensures old(tornDown) ==> notices == old(notices)
      ensures !old(tornDown) ==> notices == old(notices) + CleanupNotices(cleanupListeners)
    {
      if tornDown {
        return;
      }
      tornDown := true;
      var i := 0;
      while i < |cleanupListeners|
        invariant 0 <= i <= |cleanupListeners|
        invariant notices == old(notices) + CleanupNotices(cleanupListeners[..i])
        invariant changeListeners == old(changeListeners) && cleanupListeners == old(cleanupListeners)
        invariant rawAddress == old(rawAddress) && tornDown
      {
        notices := notices + [CleanedUp(cleanupListeners[i])];
        i := i + 1;
        assert cleanupListeners[..i] == cleanupListeners[..i - 1] + [cleanupListeners[i - 1]];
        CleanupNoticesAppend(cleanupListeners[..i - 1], cleanupListeners[i - 1]);
      }
      assert cleanupListeners[..i] == cleanupListeners;
    }
  }

  lemma ChangeNoticesAppend(ls: seq<nat>, l: nat, a: RefAddress)
    ensures ChangeNotices(ls + [l], a) == ChangeNotices(ls, a) + [AddressChanged(l, a)]
  {
  }

  lemma CleanupNoticesAppend(ls: seq<nat>, l: nat)
    ensures CleanupNotices(ls + [l]) == CleanupNotices(ls) + [CleanedUp(l)]
  {
  }

  /** Two change listeners and one cleanup listener: mounting tells nobody,
      setting the same address tells nobody, a new address reaches both
      change listeners in order, and teardown reaches the cleanup listener. */
  method ListenerScenario() returns (afterMount: seq<Notice>, afterSame: seq<Notice>, afterChange: seq<Notice>, afterTeardown: seq<Notice>)
    ensures afterMount == [] && afterSame == []
    ensures afterChange == [AddressChanged(1, ParseAddress("AB.cd")), AddressChanged(2, ParseAddress("AB.cd"))]
    ensures afterTeardown == afterChange + [CleanedUp(3)]
  {
    var w := new RefContent.Mount("ABC.1", [1, 2], [3]);
    afterMount := w.notices;
    w.SetAddress("ABC.1");
    afterSame := w.notices;
    w.SetAddress("AB.cd");
    afterChange := w.notices;
    w.Teardown();
    afterTeardown := w.notices;
  }
}
