/** The status string of a mirror in the MirrorZ site format: a letter and a
    timestamp for the sync status, then letters with further timestamps. The
    string is uniquely decodable.
    Models manager/server.go, lines 1108 to 1152.
 */
module MirrorZ {
  import opened JobTypes
  import opened Manager
  import opened Decimal

  // ---------------------------------------------------------------------
  // Lettered timestamps
  // ---------------------------------------------------------------------

  datatype Segment = Segment(letter: char, time: int)

  predicate IsLetter(c: char) {
    'A' <= c <= 'Z'
  }

  function Print(segs: seq<Segment>): string {
    if segs == [] then [] else [segs[0].letter] + PrintInt(segs[0].time) + Print(segs[1..])
  }

  /** Reads a string back as lettered numbers; a number ends at its last digit. */
  function Parse(s: string): seq<Segment> {
    if s == [] then []
    else
      var neg := |s| > 1 && s[1] == '-';
      var body := if neg then s[2..] else s[1..];
      var k := CountDigits(body);
      var n: int := ParseNat(body[..k]);
      [Segment(s[0], if neg then -n else n)] + Parse(body[k..])
  }

  /** Reading one lettered number off the front. */
  lemma ParsePlain(letter: char, ds: string, tail: string)
    requires ds != [] && (forall c | c in ds :: IsDigit(c)) && (tail == [] || !IsDigit(tail[0]))
    ensures Parse([letter] + (ds + tail)) == [Segment(letter, ParseNat(ds))] + Parse(tail)
  {
    CountBeforeTail(ds, tail);
    var body := ds + tail;
    assert body[..|ds|] == ds && body[|ds|..] == tail;
    assert IsDigit(ds[0]) by { assert ds[0] in ds; }
    var s := [letter] + body;
    assert s[0] == letter && s[1] == ds[0] && s[1..] == body;
    hide CountDigits, ParseNat;
  }

  lemma ParseMinus(letter: char, ds: string, tail: string)
    requires ds != [] && (forall c | c in ds :: IsDigit(c)) && (tail == [] || !IsDigit(tail[0]))
    ensures Parse([letter, '-'] + (ds + tail)) == [Segment(letter, 0 - ParseNat(ds) as int)] + Parse(tail)
  {
    CountBeforeTail(ds, tail);
    var body := ds + tail;
    assert body[..|ds|] == ds && body[|ds|..] == tail;
    var s := [letter, '-'] + body;
    assert s[0] == letter && s[1] == '-' && s[2..] == body;
    hide CountDigits, ParseNat;
  }

  lemma ParseFirst(g: Segment, tail: string)
    requires tail == [] || !IsDigit(tail[0])
    ensures Parse([g.letter] + PrintInt(g.time) + tail) == [g] + Parse(tail)
  {
    hide Parse;
    if g.time < 0 {
      ParseNegative(g.letter, -g.time, tail);
    } else {
      ParsePositive(g.letter, g.time, tail);
    }
    hide Digits;
  }

  lemma ParsePositive(letter: char, n: nat, tail: string)
    requires tail == [] || !IsDigit(tail[0])
    ensures Parse([letter] + Digits(n) + tail) == [Segment(letter, n)] + Parse(tail)
  {
    ParseDigits(n);
    var ds := Digits(n);
    hide Parse, Digits, ParseNat;
    ParsePlain(letter, ds, tail);
    assert [letter] + ds + tail == [letter] + (ds + tail);
  }

  lemma ParseNegative(letter: char, n: nat, tail: string)
    requires tail == [] || !IsDigit(tail[0])
    ensures Parse([letter] + (['-'] + Digits(n)) + tail) == [Segment(letter, 0 - n as int)] + Parse(tail)
  {
    ParseDigits(n);
    var ds := Digits(n);
    hide Parse, Digits, ParseNat;
    ParseMinus(letter, ds, tail);
    assert [letter] + (['-'] + ds) + tail == [letter, '-'] + (ds + tail);
  }

  lemma PrintHead(segs: seq<Segment>)
    ensures Print(segs) == [] <==> segs == []
    ensures segs != [] ==> Print(segs)[0] == segs[0].letter
  {
  }

  lemma {:induction false} ParsePrint(segs: seq<Segment>)
    requires forall g | g in segs :: IsLetter(g.letter)
    ensures Parse(Print(segs)) == segs
  {
    hide PrintInt, Digits;
    if segs == [] {
    } else {
      var g, rest := segs[0], segs[1..];
      var tail := Print(rest);
      assert Print(segs) == [g.letter] + PrintInt(g.time) + tail;
      PrintHead(rest);
      hide Parse, Print;
      assert rest != [] ==> rest[0] in segs;
      ParsePrint(rest);
      ParseFirst(g, tail);
      assert [g] + rest == segs;
    }
  }

  // ---------------------------------------------------------------------
  // The status string
  // ---------------------------------------------------------------------

  /** The kinds of mirror printed here; external ones are listed elsewhere. */
  datatype MirrorType = Mirror | Proxy | Git

  /** The timestamp a status prints first: its letter, and the time, which must
      not be zero. */
  function Primary(s: JobStatus): Option<Segment> {
    match s.status
    case Success => if s.lastUpdate != 0 then Some(Segment('S', s.lastUpdate)) else None
    case PreSyncing => if s.scheduled != 0 then Some(Segment('D', s.scheduled)) else None
    case Syncing => if s.lastStarted != 0 then Some(Segment('Y', s.lastStarted)) else None
    case Failed => if s.lastEnded != 0 then Some(Segment('F', s.lastEnded)) else None
    case Paused => if s.lastEnded != 0 then Some(Segment('P', s.lastEnded)) else None
    case Created => if s.lastRegister != 0 then Some(Segment('N', s.lastRegister)) else None
    case _ => None
  }

  /** What is appended to a primary timestamp. */
  function Suffixes(s: JobStatus): seq<Segment> {
    (if s.scheduled != 0 then [Segment('X', s.scheduled)] else [])
    + (if s.lastUpdate == 0 && s.lastRegister != 0 then [Segment('N', s.lastRegister)] else [])
    + (if (s.status == Syncing || s.status == Failed) && s.lastUpdate != 0 then [Segment('O', s.lastUpdate)] else [])
  }

  /** The string, assembled as the handler does: a default, overwritten by the
      primary timestamp, then appended to. */
  function StatusString(kind: MirrorType, s: JobStatus): string {
    if kind == Proxy then "C"
    else
      match Primary(s)
      case None => "U"
      case Some(g) =>
        var status := [g.letter] + PrintInt(g.time);
        var status := if s.scheduled != 0 then status + "X" + PrintInt(s.scheduled) else status;
        var status :=
          if s.lastUpdate == 0 && s.lastRegister != 0 then status + "N" + PrintInt(s.lastRegister) else status;
        if (s.status == Syncing || s.status == Failed) && s.lastUpdate != 0 then
          status + "O" + PrintInt(s.lastUpdate)
        else status
  }

  lemma {:induction false} PrintConcat(a: seq<Segment>, b: seq<Segment>)
    ensures Print(a + b) == Print(a) + Print(b)
  {
    if a == [] {
      assert a + b == b;
    } else {
      assert (a + b)[1..] == a[1..] + b;
      PrintConcat(a[1..], b);
    }
  }

  lemma PrintOne(g: Segment)
    ensures Print([g]) == [g.letter] + PrintInt(g.time)
  {
    assert [g][1..] == [];
    hide PrintInt;
    assert Print([g]) == [g.letter] + PrintInt(g.time) + Print([]);
  }

  lemma PrintAppend(a: seq<Segment>, g: Segment)
    ensures Print(a + [g]) == Print(a) + [g.letter] + PrintInt(g.time)
  {
    PrintConcat(a, [g]);
    PrintOne(g);
    hide Print, PrintInt;
    assert Print(a) + ([g.letter] + PrintInt(g.time)) == Print(a) + [g.letter] + PrintInt(g.time);
  }

  /** The string is the printed list of its timestamps. */
  lemma StringIsSegments(kind: MirrorType, s: JobStatus)
    requires kind != Proxy && Primary(s).Some?
    ensures StatusString(kind, s) == Print([Primary(s).value] + Suffixes(s))
  {
    var g := Primary(s).value;
    var x, n, o := Segment('X', s.scheduled), Segment('N', s.lastRegister), Segment('O', s.lastUpdate);
    var a0 := [g];
    var a1 := if s.scheduled != 0 then a0 + [x] else a0;
    var a2 := if s.lastUpdate == 0 && s.lastRegister != 0 then a1 + [n] else a1;
    var a3 := if (s.status == Syncing || s.status == Failed) && s.lastUpdate != 0 then a2 + [o] else a2;
    assert a3 == [g] + Suffixes(s);
    hide Suffixes;
    PrintAppend([], g);
    assert [] + [g] == a0 && Print([]) == [];
    hide Print, PrintInt;
    var p0 := [g.letter] + PrintInt(g.time);
    assert Print(a0) == p0;
    PrintAppend(a0, x);
    var p1 := if s.scheduled != 0 then p0 + "X" + PrintInt(s.scheduled) else p0;
    assert Print(a1) == p1;
    PrintAppend(a1, n);
    var p2 := if s.lastUpdate == 0 && s.lastRegister != 0 then p1 + "N" + PrintInt(s.lastRegister) else p1;
    assert Print(a2) == p2;
    PrintAppend(a2, o);
  }

  /** Reading a status string back yields its timestamps in order. */
  lemma ParseStatus(kind: MirrorType, s: JobStatus)
    requires StatusString(kind, s) != "U" && StatusString(kind, s) != "C"
    ensures kind != Proxy && Primary(s).Some?
    ensures Parse(StatusString(kind, s)) == [Primary(s).value] + Suffixes(s)
  {
    StringIsSegments(kind, s);
    ParsePrint([Primary(s).value] + Suffixes(s));
  }

  /** Unique decodability: two jobs, whatever their kinds and timestamps, that
      print the same string other than the two constant ones have the same
      status, the same primary timestamp, the same schedule, and, when the string
      tells of a success, a sync or a failure, the same last update. */
  lemma UniquelyDecodable(k1: MirrorType, s1: JobStatus, k2: MirrorType, s2: JobStatus)
    requires StatusString(k1, s1) == StatusString(k2, s2)
    requires StatusString(k1, s1) != "U" && StatusString(k1, s1) != "C"
    ensures s1.status == s2.status
    ensures Primary(s1) == Primary(s2)
    ensures s1.scheduled == s2.scheduled
    ensures s1.status == Success || s1.status == Syncing || s1.status == Failed ==> s1.lastUpdate == s2.lastUpdate
  {
    ParseStatus(k1, s1);
    ParseStatus(k2, s2);
    hide StatusString, Parse, Suffixes;
    var a, b := [Primary(s1).value] + Suffixes(s1), [Primary(s2).value] + Suffixes(s2);
    assert a[0] == b[0] && a[1..] == Suffixes(s1) && b[1..] == Suffixes(s2);
    PrimaryDetermines(s1, s2);
    hide Primary;
    SuffixesDetermine(s1, s2);
  }

  lemma PrimaryDetermines(s1: JobStatus, s2: JobStatus)
    requires Primary(s1) == Primary(s2) && Primary(s1).Some?
    ensures s1.status == s2.status && (s1.status == Success ==> s1.lastUpdate == s2.lastUpdate)
  {
  }

  lemma SuffixesDetermine(s1: JobStatus, s2: JobStatus)
    requires Suffixes(s1) == Suffixes(s2) && s1.status == s2.status
    ensures s1.scheduled == s2.scheduled
    ensures s1.status == Syncing || s1.status == Failed ==> s1.lastUpdate == s2.lastUpdate
  {
    var x1, x2 := if s1.scheduled != 0 then 1 else 0, if s2.scheduled != 0 then 1 else 0;
    var t := Suffixes(s1);
    assert x1 == 1 <==> t != [] && t[0].letter == 'X';
    assert x2 == 1 <==> Suffixes(s2) != [] && Suffixes(s2)[0].letter == 'X';
    if s1.status == Syncing || s1.status == Failed {
      assert s1.lastUpdate != 0 <==> |t| == x1 + 1 && t[x1].letter == 'O';
      assert s2.lastUpdate != 0 <==> |t| == x2 + 1 && Suffixes(s2)[x2].letter == 'O';
    }
  }

  /** What a reader of the string learns. A proxy is announced as cached and
      nothing else is. Any other mirror is unknown exactly if the time that goes
      with its status is zero, or its status has none; otherwise the first letter
      and number tell the status and that time, and X, N and O in this order the
      schedule, the registration of a mirror never updated, and the last update of
      one that is syncing or has failed. */
  lemma Announces(kind: MirrorType, s: JobStatus)
    ensures StatusString(kind, s) == "C" <==> kind == Proxy
    ensures kind != Proxy ==>
              (StatusString(kind, s) == "U" <==>
               !(|| (s.status == Success && s.lastUpdate != 0)
                 || (s.status == PreSyncing && s.scheduled != 0)
                 || (s.status == Syncing && s.lastStarted != 0)
                 || (s.status == Failed && s.lastEnded != 0)
                 || (s.status == Paused && s.lastEnded != 0)
                 || (s.status == Created && s.lastRegister != 0)))
    ensures kind != Proxy && StatusString(kind, s) != "U" ==>
              var p := Parse(StatusString(kind, s));
              && p != [] && StatusString(kind, s)[0] == p[0].letter
              && (s.status == Success <==> p[0].letter == 'S') && (s.status == Success ==> p[0].time == s.lastUpdate)
              && (s.status == PreSyncing <==> p[0].letter == 'D')
              && (s.status == PreSyncing ==> p[0].time == s.scheduled)
              && (s.status == Syncing <==> p[0].letter == 'Y') && (s.status == Syncing ==> p[0].time == s.lastStarted)
              && (s.status == Failed <==> p[0].letter == 'F') && (s.status == Failed ==> p[0].time == s.lastEnded)
              && (s.status == Paused <==> p[0].letter == 'P') && (s.status == Paused ==> p[0].time == s.lastEnded)
              && (s.status == Created <==> p[0].letter == 'N') && (s.status == Created ==> p[0].time == s.lastRegister)
              && p[1..] == (if s.scheduled != 0 then [Segment('X', s.scheduled)] else [])
                           + (if s.lastUpdate == 0 && s.lastRegister != 0 then [Segment('N', s.lastRegister)] else [])
                           + (if (s.status == Syncing || s.status == Failed) && s.lastUpdate != 0
                              then [Segment('O', s.lastUpdate)] else [])
  {
    if kind != Proxy && Primary(s).Some? {
      StringIsSegments(kind, s);
      var segs := [Primary(s).value] + Suffixes(s);
      ParsePrint(segs);
      var str := StatusString(kind, s);
      assert segs[1..] == Suffixes(s);
      assert str == [segs[0].letter] + PrintInt(segs[0].time) + Print(segs[1..]);
      assert str[0] == segs[0].letter != 'U' && str[0] != 'C';
      hide StatusString, Parse, Print, PrintInt;
    }
  }
}
