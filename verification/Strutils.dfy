/**
  Splitting, joining and percent-decoding of byte strings.
 */
module Strutils {
  import opened Prelude

  // ---- find ----

  predicate OccursAt(s: string, t: string, i: nat) {
    i + |t| <= |s| && s[i..i + |t|] == t
  }

  /** std::string_view::find from a position: the first occurrence at or after it. */
  function FindFrom(s: string, t: string, from: nat): (r: Option<nat>)
    ensures r.Some? ==> from <= r.value && r.value + |t| <= |s| && OccursAt(s, t, r.value)
    ensures r.Some? ==> forall i :: from <= i < r.value ==> !OccursAt(s, t, i)
    ensures r.None? ==> forall i :: from <= i ==> !OccursAt(s, t, i)
    decreases |s| - from
  {
    if from + |t| > |s| then None
    else if OccursAt(s, t, from) then Some(from)
    else FindFrom(s, t, from + 1)
  }

  function Find(s: string, t: string): Option<nat> {
    FindFrom(s, t, 0)
  }

  /** The first occurrence is unique. */
  lemma FindIs(s: string, t: string, i: nat)
    requires OccursAt(s, t, i) && forall k: nat :: k < i ==> !OccursAt(s, t, k)
    ensures Find(s, t) == Some(i)
  {
  }

  lemma OccursInSuffix(s: string, t: string, from: nat, i: nat)
    requires from <= |s|
    ensures OccursAt(s[from..], t, i) <==> OccursAt(s, t, from + i)
  {
    var u := s[from..];
    if i + |t| <= |u| {
      assert u[i..i + |t|] == s[from + i..from + i + |t|];
    }
  }

  lemma FindInSuffix(s: string, t: string, from: nat)
    requires from <= |s|
    ensures FindFrom(s, t, from) ==
      match Find(s[from..], t) case None => None case Some(i) => Some(from + i)
  {
    hide FindFrom, OccursAt;
    var r, f := FindFrom(s, t, from), Find(s[from..], t);
    if r.Some? {
      var n := r.value - from;
      OccursInSuffix(s, t, from, n);
      forall k: nat | k < n ensures !OccursAt(s[from..], t, k) {
        OccursInSuffix(s, t, from, k);
      }
      FindIs(s[from..], t, n);
    } else if f.Some? {
      OccursInSuffix(s, t, from, f.value);
    }
  }

  // ---- join ----

  /** The pieces with the separator between each two. */
  function Joined(v: seq<string>, t: string): string {
    if v == [] then "" else if |v| == 1 then v[0] else v[0] + t + Joined(v[1..], t)
  }

  /** The pieces each followed by the separator, as the loop appends them. */
  function Terminated(v: seq<string>, t: string): string {
    if v == [] then "" else Terminated(v[..|v| - 1], t) + v[|v| - 1] + t
  }

  lemma {:induction false} JoinedAppend(v: seq<string>, x: string, t: string)
    requires v != []
    ensures Joined(v + [x], t) == Joined(v, t) + t + x
    decreases |v|
  {
    assert (v + [x])[1..] == v[1..] + [x];
    if |v| > 1 {
      JoinedAppend(v[1..], x, t);
      assert v[0] + t + (Joined(v[1..], t) + t + x) == v[0] + t + Joined(v[1..], t) + t + x;
    }
  }

  lemma {:induction false} TerminatedIsJoined(v: seq<string>, t: string)
    requires v != []
    ensures Terminated(v, t) == Joined(v, t) + t
    decreases |v|
  {
    var w, x := v[..|v| - 1], v[|v| - 1];
    assert v == w + [x];
    if w == [] {
      assert Terminated(v, t) == "" + x + t;
    } else {
      TerminatedIsJoined(w, t);
      JoinedAppend(w, x, t);
    }
  }

  method Join(vec: seq<string>, term: string) returns (result: string)
    ensures result == Joined(vec, term)
  {
    result := "";
    var i := 0;
    while i < |vec|
      invariant i <= |vec| && result == Terminated(vec[..i], term)
    {
      assert vec[..i + 1][..i] == vec[..i];
      result := result + vec[i];
      result := result + term;
      i := i + 1;
    }
    assert vec[..i] == vec;
    if vec != [] {
      TerminatedIsJoined(vec, term);
    }
    if result != "" && term != "" {
      result := result[..|result| - |term|];
    }
  }

  // ---- explode ----

  /** The pieces of a non-empty string, separators found from the left; a piece after the last only if non-empty. */
  function Pieces(s: string, t: string): (v: seq<string>)
    requires s != "" && t != ""
    ensures v != []
    decreases |s|
  {
    match Find(s, t)
    case None => [s]
    case Some(i) =>
      if i + |t| < |s| then [s[..i]] + Pieces(s[i + |t|..], t) else [s[..i]]
  }

  function Exploded(s: string, t: string): seq<string> {
    if s == "" then [] else if t == "" then [s] else Pieces(s, t)
  }

  lemma NoPieces(u: string, t: string)
    requires u != "" && t != "" && Find(u, t).None?
    ensures Pieces(u, t) == [u]
  {
  }

  lemma PiecesUnfold(u: string, t: string, i: nat)
    requires u != "" && t != "" && Find(u, t) == Some(i)
    ensures i + |t| <= |u|
    ensures Pieces(u, t) == if i + |t| < |u| then [u[..i]] + Pieces(u[i + |t|..], t) else [u[..i]]
  {
    hide OccursAt;
  }

  lemma Slices(s: string, from: nat, to: nat, n: nat)
    requires from <= to && to + n <= |s|
    ensures s[from..][..to - from] == s[from..to]
    ensures s[from..][to - from + n..] == s[to + n..]
  {
  }

  /** The same pieces, by the position in the whole string the loop is at. */
  function PiecesAt(s: string, t: string, current: nat): seq<string>
    requires current < |s| && t != ""
    decreases |s| - current
  {
    var sep := FindFrom(s, t, current);
    if sep.None? then [s[current..]]
    else if sep.value + |t| < |s| then [s[current..sep.value]] + PiecesAt(s, t, sep.value + |t|)
    else [s[current..sep.value]]
  }

  lemma {:induction false} PiecesAtIsPieces(s: string, t: string, current: nat)
    requires current < |s| && t != ""
    ensures PiecesAt(s, t, current) == Pieces(s[current..], t)
    decreases |s| - current
  {
    hide *;
    FindInSuffix(s, t, current);
    PiecesAtUnfold(s, t, current);
    var sep := FindFrom(s, t, current);
    if sep.None? {
      NoPieces(s[current..], t);
    } else {
      Slices(s, current, sep.value, |t|);
      PiecesUnfold(s[current..], t, sep.value - current);
      if sep.value + |t| < |s| {
        PiecesAtIsPieces(s, t, sep.value + |t|);
      }
    }
  }

  lemma PiecesAtUnfold(s: string, t: string, current: nat)
    requires current < |s| && t != ""
    ensures var sep := FindFrom(s, t, current);
      PiecesAt(s, t, current) ==
        if sep.None? then [s[current..]]
        else if sep.value + |t| < |s| then [s[current..sep.value]] + PiecesAt(s, t, sep.value + |t|)
        else [s[current..sep.value]]
  {
  }

  method Explode(strview: string, term: string) returns (result: seq<string>)
    ensures result == Exploded(strview, term)
    ensures strview == "" ==> result == []
    ensures strview != "" && term == "" ==> result == [strview]
    ensures strview != "" && term != "" ==> forall piece :: piece in result ==> !Contains(piece, term)
  {
    hide Pieces, FindFrom, OccursAt;
    var current := 0;
    result := [];
    if strview == "" {
      return;
    }
    if term == "" {
      result := [strview];
      return;
    }
    while true
      invariant current < |strview|
      invariant PiecesAt(strview, term, 0) == result + PiecesAt(strview, term, current)
      decreases |strview| - current
    {
      var sep := FindFrom(strview, term, current);
      if sep.None? {
        result := result + [strview[current..]];
        break;
      }
      result := result + [strview[current..sep.value]];
      current := sep.value + |term|;
      if current >= |strview| {
        break;
      }
    }
    PiecesAtIsPieces(strview, term, 0);
    assert strview[0..] == strview;
    PiecesEndAtSeparators(strview, term);
  }

  // ---- join after explode ----

  /** The separators found from the left end exactly at the end of the string. */
  predicate EndsOnSeparator(s: string, t: string)
    requires t != ""
    decreases |s|
  {
    match Find(s, t)
    case None => false
    case Some(i) => i + |t| == |s| || EndsOnSeparator(s[i + |t|..], t)
  }

  /** Joining what explode cut gives the string back, but for a final separator. */
  lemma {:induction false} JoinOfExplode(s: string, t: string)
    requires t != ""
    ensures Joined(Exploded(s, t), t) == if EndsOnSeparator(s, t) then s[..|s| - |t|] else s
    ensures EndsOnSeparator(s, t) ==> |t| <= |s| && s[|s| - |t|..] == t
    decreases |s|
  {
    hide FindFrom;
    var f := Find(s, t);
    if f.Some? && s != "" {
      var i := f.value;
      var rest := s[i + |t|..];
      assert s == s[..i] + t + rest;
      if rest != "" {
        JoinOfExplode(rest, t);
        var v := Pieces(rest, t);
        assert ([s[..i]] + v)[1..] == v;
        if EndsOnSeparator(rest, t) {
          assert s[..i] + t + rest[..|rest| - |t|] == s[..|s| - |t|];
          assert s[|s| - |t|..] == rest[|rest| - |t|..];
        }
      }
    }
  }

  ghost predicate Contains(s: string, t: string) {
    exists i: nat :: OccursAt(s, t, i)
  }

  lemma FoundIffContained(s: string, t: string)
    ensures Find(s, t).Some? <==> Contains(s, t)
  {
    hide OccursAt;
  }

  /** A piece ends where the separator first occurs, so the separator is not in it. */
  lemma FirstAfter(s: string, t: string, i: nat)
    requires t != "" && Find(s, t) == Some(i)
    ensures Find(s[..i] + t, t) == Some(i) && !Contains(s[..i], t)
  {
    var p := s[..i];
    assert OccursAt(p + t, t, i);
    forall k: nat ensures OccursAt(p, t, k) ==> k < i && OccursAt(s, t, k) {
      if OccursAt(p, t, k) {
        assert p[k..k + |t|] == s[k..k + |t|];
      }
    }
    forall k: nat | k < i ensures !OccursAt(p + t, t, k) {
      assert OccursAt(s, t, i) && !OccursAt(s, t, k);
      assert p + t == s[..i + |t|];
      assert (p + t)[k..k + |t|] == s[k..k + |t|];
    }
    hide OccursAt;
    FindIs(p + t, t, i);
  }

  /**
    The pieces of a string: none contains the separator, each that a separator follows ends at its
    first occurrence, and the last is empty only if a separator follows it.
   */
  lemma {:induction false} PiecesEndAtSeparators(s: string, t: string)
    requires s != "" && t != ""
    ensures var v := Pieces(s, t); var last := |v| - 1;
      && (forall i :: 0 <= i <= last ==> !Contains(v[i], t))
      && (forall i :: 0 <= i <= last && (i < last || EndsOnSeparator(s, t)) ==> Find(v[i] + t, t) == Some(|v[i]|))
      && (!EndsOnSeparator(s, t) ==> v[last] != "")
    decreases |s|
  {
    hide FindFrom, Contains, OccursAt;
    var f := Find(s, t);
    if f.Some? {
      var i := f.value;
      PiecesUnfold(s, t, i);
      FirstAfter(s, t, i);
      if i + |t| < |s| {
        PiecesEndAtSeparators(s[i + |t|..], t);
      }
    } else {
      FoundIffContained(s, t);
    }
  }

  /** The round trip, on every string and every separator, with its exact condition. */
  lemma ExplodeJoins(s: string, t: string)
    ensures Joined(Exploded(s, t), t) == s <==> t == "" || !EndsOnSeparator(s, t)
  {
    if t != "" {
      JoinOfExplode(s, t);
    }
  }

  /** A final separator that is lost. */
  lemma FinalSeparatorLost()
    ensures Exploded("a,", ",") == ["a"] && Joined(Exploded("a,", ","), ",") == "a" != "a,"
  {
    assert "a,"[0..1][0] == 'a' && "a,"[1..2] == ",";
    FindIs("a,", ",", 1);
    PiecesUnfold("a,", ",", 1);
    assert "a,"[..1] == "a" && Joined(["a"], ",") == "a";
  }

  // ---- explode after join ----

  /** The first occurrence of t in p + t + rest is decided within p + t. */
  lemma FindBeforeSeparator(p: string, t: string, rest: string)
    requires t != ""
    ensures Find(p + t + rest, t) == Find(p + t, t)
    ensures Find(p + t, t).Some? && Find(p + t, t).value <= |p|
  {
    var s, u := p + t, p + t + rest;
    assert OccursAt(s, t, |p|);
    var i := Find(s, t).value;
    forall k: nat | k <= |p| ensures OccursAt(u, t, k) <==> OccursAt(s, t, k) {
      assert u[k..k + |t|] == s[k..k + |t|];
    }
    FindIs(u, t, i);
  }

  /** Pieces that survive: t first occurs in each earlier piece's own separator, and not in the last,
    which is not empty. */
  predicate Separable(v: seq<string>, t: string)
    requires t != ""
  {
    v != [] ==>
      if |v| == 1 then v[0] != "" && Find(v[0], t).None?
      else Find(v[0] + t, t) == Some(|v[0]|) && Separable(v[1..], t)
  }

  /** A piece and its separator, exploded with what follows. */
  lemma ExplodeHead(p: string, t: string, tail: string)
    requires t != ""
    ensures Find(p + t, t) == Some(|p|) ==> Exploded(p + t + tail, t) == [p] + Exploded(tail, t)
    ensures Find(p + t, t) != Some(|p|) ==> Exploded(p + t + tail, t) != [] && Exploded(p + t + tail, t)[0] != p
  {
    var s := p + t + tail;
    FindBeforeSeparator(p, t, tail);
    hide FindFrom, OccursAt, Pieces;
    var i := Find(s, t).value;
    PiecesUnfold(s, t, i);
    if i == |p| {
      assert s[..i] == p;
      assert s[i + |t|..] == tail;
    } else {
      assert |s[..i]| != |p|;
    }
  }

  lemma HeadAndRest<T>(v: seq<T>, p: T, w: seq<T>)
    requires v != []
    ensures v == [p] + w <==> v[0] == p && v[1..] == w
  {
    assert v == [v[0]] + v[1..];
    assert ([p] + w)[1..] == w;
  }

  /** Exploding what was joined gives the pieces back exactly when they are separable. */
  lemma {:induction false} JoinExplodes(v: seq<string>, t: string)
    requires t != ""
    ensures Exploded(Joined(v, t), t) == v <==> Separable(v, t)
    decreases |v|
  {
    if |v| == 1 {
      OnePiece(v[0], t);
      assert v == [v[0]];
    } else if |v| > 1 {
      hide Exploded, Find;
      JoinExplodes(v[1..], t);
      ExplodeHead(v[0], t, Joined(v[1..], t));
      HeadAndRest(v, v[0], Exploded(Joined(v[1..], t), t));
    }
  }

  lemma OnePiece(p: string, t: string)
    requires t != ""
    ensures Exploded(p, t) == [p] <==> p != "" && Find(p, t).None?
  {
    if p != "" && Find(p, t).Some? {
      assert |Pieces(p, t)[0]| < |p|;
    }
  }

  /** For a separator of one character: absent from every piece, and the last piece not empty. */
  lemma {:induction false} SeparableByCharacter(v: seq<string>, c: char)
    ensures Separable(v, [c]) <==> (forall p :: p in v ==> c !in p) && (v == [] || v[|v| - 1] != "")
    decreases |v|
  {
    if v != [] {
      FindCharacter(v[0], c);
      if |v| == 1 {
        assert v == [v[0]];
      } else {
        SeparableByCharacter(v[1..], c);
        assert v == [v[0]] + v[1..];
        assert v[1..][|v| - 2] == v[|v| - 1];
      }
    }
  }

  lemma FindCharacter(p: string, c: char)
    ensures Find(p, [c]).None? <==> c !in p
    ensures Find(p + [c], [c]) == Some(|p|) <==> c !in p
  {
    assert forall i: nat :: OccursAt(p, [c], i) <==> i < |p| && p[i] == c by {
      forall i: nat ensures OccursAt(p, [c], i) <==> i < |p| && p[i] == c {
        if i < |p| {
          assert p[i..i + 1] == [p[i]];
        }
      }
    }
    var q := p + [c];
    forall i: nat ensures OccursAt(q, [c], i) <==> i < |q| && q[i] == c {
      if i < |q| {
        assert q[i..i + 1] == [q[i]];
      }
    }
    if c in p {
      var i: nat :| i < |p| && p[i] == c;
      assert OccursAt(p, [c], i) && OccursAt(q, [c], i);
    } else {
      assert OccursAt(q, [c], |p|);
      FindIs(q, [c], |p|);
    }
  }

  // ---- url_decode ----

  /** The digit table: upper-case digits only; any other character counts as 0. */
  function TableValue(c: char): (n: nat)
    ensures n < 16
  {
    if '0' <= c <= '9' then c as int - '0' as int
    else if 'A' <= c <= 'F' then c as int - 'A' as int + 10
    else 0
  }

  /** The local variables of the loop. */
  datatype Decoder = Decoder(result: string, chrsize: nat, tempchchr: nat, inchr: bool)

  predicate DecoderOk(d: Decoder) {
    d.tempchchr < 256 && d.chrsize <= 2 && (d.chrsize == 1 ==> d.tempchchr % 16 == 0)
  }

  /** The flush a finished triplet waits for until the next character or the end. */
  function Flush(d: Decoder): (f: Decoder)
    requires DecoderOk(d)
    ensures DecoderOk(f) && f.chrsize < 2
  {
    if d.chrsize == 2 then Decoder(d.result + [d.tempchchr as char], 0, 0, false) else d
  }

  /** One character. With one digit read the low four bits are clear, so `|=` is addition. */
  function Consume(d: Decoder, c: char): (r: Decoder)
    requires DecoderOk(d)
    ensures DecoderOk(r)
  {
    var f := Flush(d);
    if c == '%' then f.(inchr := true, chrsize := 0, tempchchr := 0)
    else if !f.inchr then f.(result := f.result + [c])
    else if f.chrsize == 0 then f.(tempchchr := 16 * TableValue(c), chrsize := 1)
    else f.(tempchchr := f.tempchchr + TableValue(c), chrsize := 2)
  }

  function ConsumeAll(d: Decoder, s: string): (r: Decoder)
    requires DecoderOk(d)
    ensures DecoderOk(r)
    decreases |s|
  {
    if s == "" then d else ConsumeAll(Consume(d, s[0]), s[1..])
  }

  function Decoded(s: string): string {
    Flush(ConsumeAll(Decoder("", 0, 0, false), s)).result
  }

  method UrlDecode(str: string) returns (result: string)
    ensures result == Decoded(str)
  {
    result := "";
    var chrsize: nat, tempchchr: nat, inchr := 0, 0, false;
    var i := 0;
    ghost var start := Decoder("", 0, 0, false);
    assert str[0..] == str;
    while i < |str|
      invariant i <= |str| && DecoderOk(Decoder(result, chrsize, tempchchr, inchr))
      invariant ConsumeAll(start, str) == ConsumeAll(Decoder(result, chrsize, tempchchr, inchr), str[i..])
    {
      var c := str[i];
      assert str[i..][1..] == str[i + 1..];
      i := i + 1;
      if chrsize == 2 {
        result := result + [tempchchr as char];
        inchr := false;
        chrsize := 0;
        tempchchr := 0;
      }
      if c == '%' {
        inchr := true;
        chrsize := 0;
        tempchchr := 0;
        continue;
      }
      if inchr {
        if chrsize == 0 {
          tempchchr := 16 * TableValue(c);
          chrsize := chrsize + 1;
        } else {
          tempchchr := tempchchr + TableValue(c);
          chrsize := chrsize + 1;
        }
      } else {
        result := result + [c];
      }
    }
    if chrsize == 2 {
      result := result + [tempchchr as char];
    }
  }

  /** The text without a loop: triplets decode, and a triplet that is broken off is dropped. */
  function Triplets(s: string): string {
    if s == "" then ""
    else if s[0] != '%' then [s[0]] + Triplets(s[1..])
    else if |s| == 1 then ""
    else if s[1] == '%' then Triplets(s[1..])
    else if |s| == 2 then ""
    else if s[2] == '%' then Triplets(s[2..])
    else [(16 * TableValue(s[1]) + TableValue(s[2])) as char] + Triplets(s[3..])
  }

  /** For every text, well formed or not, the loop decodes the triplets. */
  lemma DecodesTriplets(s: string)
    ensures Decoded(s) == Triplets(s)
  {
    ConsumesTriplets(Decoder("", 0, 0, false), s);
  }

  lemma {:induction false} ConsumesTriplets(d: Decoder, s: string)
    requires DecoderOk(d) && Settled(d)
    ensures Flush(ConsumeAll(d, s)).result == Flush(d).result + Triplets(s)
    decreases |s|, 1
  {
    if s != "" {
      if s[0] == '%' {
        AfterPercent(Flush(d).result, s);
      } else {
        ConsumesTriplets(Consume(d, s[0]), s[1..]);
      }
    }
  }

  /** From a percent sign on, with nothing pending. */
  lemma {:induction false} AfterPercent(r: string, s: string)
    requires s != "" && s[0] == '%'
    ensures Flush(ConsumeAll(Decoder(r, 0, 0, true), s[1..])).result == r + Triplets(s)
    decreases |s|, 0
  {
    var d := Decoder(r, 0, 0, true);
    if |s| > 1 {
      if s[1] == '%' {
        assert s[1..][1..] == s[2..];
        AfterPercent(r, s[1..]);
      } else if |s| > 2 {
        var d1 := Consume(d, s[1]);
        assert s[1..][1..] == s[2..] && s[2..][1..] == s[3..];
        if s[2] == '%' {
          AfterPercent(r, s[2..]);
        } else {
          ConsumesTriplets(Consume(d1, s[2]), s[3..]);
        }
      } else {
        assert s[1..][1..] == "";
      }
    }
  }

  // ---- Percent-encoding: section 2.1 of RFC 3986 ----

  /** A character as itself, or a percent-encoded octet with its two hexadecimal digits. */
  datatype Token = Plain(c: char) | Percent(hi: char, lo: char)

  predicate IsLowerHex(c: char) {
    'a' <= c <= 'f'
  }

  predicate IsHex(c: char) {
    '0' <= c <= '9' || 'A' <= c <= 'F' || IsLowerHex(c)
  }

  function HexValue(c: char): (n: nat)
    requires IsHex(c)
    ensures n < 16
  {
    if IsLowerHex(c) then c as int - 'a' as int + 10 else TableValue(c)
  }

  predicate TokenOk(t: Token) {
    match t case Plain(c) => c != '%' case Percent(hi, lo) => IsHex(hi) && IsHex(lo)
  }

  predicate TokensOk(ts: seq<Token>) {
    forall i :: 0 <= i < |ts| ==> TokenOk(ts[i])
  }

  function Written(t: Token): string {
    match t case Plain(c) => [c] case Percent(hi, lo) => ['%', hi, lo]
  }

  function Rendered(ts: seq<Token>): string {
    if ts == [] then "" else Written(ts[0]) + Rendered(ts[1..])
  }

  /** The octet a token stands for; hexadecimal digits in either case are equal. */
  function Octet(t: Token): char
    requires TokenOk(t)
  {
    match t case Plain(c) => c case Percent(hi, lo) => (16 * HexValue(hi) + HexValue(lo)) as char
  }

  function Meant(ts: seq<Token>): (s: string)
    requires TokensOk(ts)
    ensures |s| == |ts|
  {
    seq(|ts|, i requires 0 <= i < |ts| => Octet(ts[i]))
  }

  /** What the decoder makes of a token. */
  function Read(t: Token): char {
    match t case Plain(c) => c case Percent(hi, lo) => (16 * TableValue(hi) + TableValue(lo)) as char
  }

  lemma ConsumeFirst(d: Decoder, c: char, rest: string)
    requires DecoderOk(d)
    ensures ConsumeAll(d, [c] + rest) == ConsumeAll(Consume(d, c), rest)
  {
    assert ([c] + rest)[1..] == rest;
  }

  /** Reading one token leaves its character in the result, or waiting to be flushed. */
  lemma ConsumeToken(d: Decoder, t: Token, rest: string)
    requires DecoderOk(d) && TokenOk(t) && Settled(d)
    ensures var e := ConsumeAll(d, Written(t));
      && Settled(e) && Flush(e).result == Flush(d).result + [Read(t)]
      && ConsumeAll(d, Written(t) + rest) == ConsumeAll(e, rest)
  {
    match t
    case Plain(c) =>
      ConsumeFirst(d, c, rest);
      ConsumeFirst(d, c, "");
      assert [c] + "" == [c];
    case Percent(hi, lo) => ConsumeTriplet(d, hi, lo, rest);
  }

  /** A whole triplet: its octet is left pending in `tempchchr`. */
  lemma ConsumeTriplet(d: Decoder, hi: char, lo: char, rest: string)
    requires DecoderOk(d)
    ensures ConsumeAll(d, ['%', hi, lo]) == Decoder(Flush(d).result, 2, 16 * TableValue(hi) + TableValue(lo), true)
      || hi == '%' || lo == '%'
    ensures ConsumeAll(d, ['%', hi, lo] + rest) == ConsumeAll(ConsumeAll(d, ['%', hi, lo]), rest)
  {
    ConsumeThree(d, '%', hi, lo, rest);
    ConsumeThree(d, '%', hi, lo, "");
    assert ['%', hi, lo] + "" == ['%', hi, lo];
  }

  lemma ConsumeThree(d: Decoder, a: char, b: char, c: char, rest: string)
    requires DecoderOk(d)
    ensures ConsumeAll(d, [a, b, c] + rest) == ConsumeAll(Consume(Consume(Consume(d, a), b), c), rest)
  {
    hide Consume;
    ConsumeFirst(d, a, [b, c] + rest);
    ConsumeFirst(Consume(d, a), b, [c] + rest);
    ConsumeFirst(Consume(Consume(d, a), b), c, rest);
    assert [a, b, c] + rest == [a] + ([b, c] + rest) && [b, c] + rest == [b] + ([c] + rest);
    hide ConsumeAll;
  }

  /** Between tokens: either nothing is pending, or a finished triplet is. */
  predicate Settled(d: Decoder) {
    if d.chrsize == 2 then d.inchr else d.chrsize == 0 && !d.inchr
  }

  lemma {:induction false} ConsumeTokens(d: Decoder, ts: seq<Token>)
    requires DecoderOk(d) && TokensOk(ts) && Settled(d)
    ensures Flush(ConsumeAll(d, Rendered(ts))).result ==
        Flush(d).result + seq(|ts|, i requires 0 <= i < |ts| => Read(ts[i]))
    decreases |ts|
  {
    if ts != [] {
      ConsumeToken(d, ts[0], Rendered(ts[1..]));
      var e := ConsumeAll(d, Written(ts[0]));
      ConsumeTokens(e, ts[1..]);
      assert seq(|ts|, i requires 0 <= i < |ts| => Read(ts[i]))
        == [Read(ts[0])] + seq(|ts[1..]|, i requires 0 <= i < |ts[1..]| => Read(ts[1..][i]));
    }
  }

  predicate NoLowerHex(t: Token) {
    t.Percent? ==> !IsLowerHex(t.hi) && !IsLowerHex(t.lo)
  }

  lemma ReadIsOctet(t: Token)
    requires TokenOk(t)
    ensures Read(t) == Octet(t) <==> NoLowerHex(t)
  {
  }

  /** Percent-decoding returns what was encoded exactly when no hexadecimal digit is in lower case. */
  lemma DecodeInvertsEncoding(ts: seq<Token>)
    requires TokensOk(ts)
    ensures Decoded(Rendered(ts)) == Meant(ts) <==> forall i :: 0 <= i < |ts| ==> NoLowerHex(ts[i])
  {
    ConsumeTokens(Decoder("", 0, 0, false), ts);
    var got := seq(|ts|, i requires 0 <= i < |ts| => Read(ts[i]));
    assert Decoded(Rendered(ts)) == "" + got == got;
    forall i | 0 <= i < |ts| ensures got[i] == Meant(ts)[i] <==> NoLowerHex(ts[i]) {
      ReadIsOctet(ts[i]);
    }
  }

  /** A slash encoded in lower case comes out as a blank. */
  lemma LowerCaseMisread()
    ensures Decoded("%2f") == " " && Octet(Percent('2', 'f')) == '/'
  {
    var d := Decoder("", 0, 0, false);
    ConsumeTriplet(d, '2', 'f', "");
  }

  /** Percent-encoding of bytes in upper case: always '%' itself, and whatever else is marked. */
  function PercentEncoded(s: string, mark: seq<bool>): (ts: seq<Token>)
    requires |mark| == |s| && forall i :: 0 <= i < |s| ==> s[i] as int < 256
    ensures |ts| == |s|
  {
    seq(|s|, i requires 0 <= i < |s| =>
      if mark[i] || s[i] == '%' then Percent(HexDigit(s[i] as int / 16), HexDigit(s[i] as int % 16))
          else Plain(s[i]))
  }

  /** Every byte string survives every such encoding. */
  lemma EncodedBytesDecode(s: string, mark: seq<bool>)
    requires |mark| == |s| && forall i :: 0 <= i < |s| ==> s[i] as int < 256
    ensures Decoded(Rendered(PercentEncoded(s, mark))) == s
  {
    var ts := PercentEncoded(s, mark);
    forall i | 0 <= i < |s| ensures TokenOk(ts[i]) && NoLowerHex(ts[i]) && Octet(ts[i]) == s[i] {
      var n := s[i] as int;
      assert HexValue(HexDigit(n / 16)) == n / 16 && HexValue(HexDigit(n % 16)) == n % 16;
      assert n as char == s[i];
    }
    DecodeInvertsEncoding(ts);
  }
}
