/** The rewrite `importIndexJs` applies to the fetched `index.js` before it is
    evaluated: keep the first closure-defines statement and every
    `goog.require(...)` statement, in source order, and drop everything else.

    The two regular expressions have the shape `head .*? stop`, where every `.`
    of the head is the regular-expression wildcard (any character but a line
    terminator), `.*?` is a lazy run of such characters and `stop` is literal. */
module IndexJs {
  import opened Wrappers

  /** The characters JavaScript's `.` does not match. */
  predicate IsLineTerminator(c: char) {
    c == '\n' || c == '\r' || c == '\U{2028}' || c == '\U{2029}'
  }

  /** One position of a pattern head: a literal character or the wildcard `.`. */
  datatype Atom = Lit(c: char) | AnyChar

  predicate AtomMatches(a: Atom, c: char) {
    match a
    case Lit(x) => c == x
    case AnyChar => !IsLineTerminator(c)
  }

  /** Reads a head written as regular-expression text: `.` is the wildcard and
      every other character (after escapes are removed) is literal. */
  function Compile(p: string): (head: seq<Atom>)
    ensures |head| == |p|
    ensures forall k :: 0 <= k < |p| ==> head[k] == (if p[k] == '.' then AnyChar else Lit(p[k]))
  {
    seq(|p|, k requires 0 <= k < |p| => if p[k] == '.' then AnyChar else Lit(p[k]))
  }

  /** A pattern `head .*? stop`. */
  datatype Lazy = Lazy(head: seq<Atom>, stop: string)

  /** `goog.global.CLOSURE_UNCOMPILED_DEFINES.*?;` */
  const Defines: Lazy := Lazy(Compile("goog.global.CLOSURE_UNCOMPILED_DEFINES"), ";")

  /** `goog.require\(.*?\);` */
  const Require: Lazy := Lazy(Compile("goog.require("), ");")

  predicate NonEmpty(p: Lazy) {
    |p.head| + |p.stop| > 0
  }

  predicate HeadAt(s: string, a: int, head: seq<Atom>) {
    0 <= a && a + |head| <= |s| && forall k :: 0 <= k < |head| ==> AtomMatches(head[k], s[a + k])
  }

  predicate NoTerminator(s: string, lo: int, hi: int)
    requires 0 <= lo && hi <= |s|
  {
    forall k :: lo <= k < hi ==> !IsLineTerminator(s[k])
  }

  /** `s[j..b]` is a run of non-terminators followed by `stop`. */
  predicate StopAt(s: string, j: int, stop: string, b: int) {
    && 0 <= j && j + |stop| <= b <= |s|
    && s[b - |stop|..b] == stop
    && NoTerminator(s, j, b - |stop|)
  }

  /** `s[a..b]` is matched by `head`, a run of non-terminators and `stop`,
      laziness aside. */
  predicate EndsAt(s: string, a: int, b: int, p: Lazy) {
    HeadAt(s, a, p.head) && StopAt(s, a + |p.head|, p.stop, b)
  }

  /** The lazy `.*? stop` from position `j`: the first place `stop` occurs such
      that no line terminator comes before it; the result is the end of `stop`. */
  function LazyEnd(s: string, j: nat, stop: string): (r: Option<nat>)
    ensures r.Some? ==> StopAt(s, j, stop, r.value)
    ensures r.Some? ==> forall b :: b < r.value ==> !StopAt(s, j, stop, b)
    ensures r.None? ==> forall b :: !StopAt(s, j, stop, b)
    decreases |s| - j
  {
    if j + |stop| <= |s| && s[j..j + |stop|] == stop then Some(j + |stop|)
    else if j < |s| && !IsLineTerminator(s[j]) then
      var r := LazyEnd(s, j + 1, stop);
      forall b | StopAt(s, j, stop, b) ensures StopAt(s, j + 1, stop, b) {
      }
      r
    else
      forall b | StopAt(s, j, stop, b) ensures false {
      }
      None
  }

  /** The end of the match that starts exactly at `a`, if any. */
  function MatchAt(s: string, a: nat, p: Lazy): (r: Option<nat>)
    ensures r.Some? ==> EndsAt(s, a, r.value, p) && forall b :: b < r.value ==> !EndsAt(s, a, b, p)
    ensures r.None? ==> forall b :: !EndsAt(s, a, b, p)
  {
    if HeadAt(s, a, p.head) then LazyEnd(s, a + |p.head|, p.stop) else None
  }

  /** Where a match lies in the scanned text. */
  datatype Span = Span(start: nat, end: nat)

  /** `p.exec(s)` with `lastIndex = from`: the leftmost match starting at or
      after `from`. */
  function Exec(s: string, from: nat, p: Lazy): (r: Option<Span>)
    ensures r.Some? ==> from <= r.value.start <= |s| && MatchAt(s, r.value.start, p) == Some(r.value.end)
    ensures r.Some? ==> forall a :: from <= a < r.value.start ==> MatchAt(s, a, p).None?
    ensures r.None? ==> forall a :: from <= a <= |s| ==> MatchAt(s, a, p).None?
    decreases |s| + 1 - from
  {
    if from > |s| then None
    else match MatchAt(s, from, p)
      case Some(b) => Some(Span(from, b))
      case None => Exec(s, from + 1, p)
  }

  /** A match ends after it starts, so the scan makes progress. */
  lemma MatchEndsLater(s: string, a: nat, p: Lazy)
    requires NonEmpty(p) && MatchAt(s, a, p).Some?
    ensures a < MatchAt(s, a, p).value <= |s|
  {
  }

  /** `s.match(p)` with the global flag: leftmost matches, each search
      resuming where the previous match ended. */
  function FindAll(s: string, from: nat, p: Lazy): (spans: seq<Span>)
    requires NonEmpty(p) && from <= |s|
    ensures forall i :: 0 <= i < |spans| ==>
              from <= spans[i].start < spans[i].end <= |s|
              && MatchAt(s, spans[i].start, p) == Some(spans[i].end)
    ensures forall i :: 0 <= i < |spans| - 1 ==> spans[i].end <= spans[i + 1].start
    decreases |s| + 1 - from
  {
    match Exec(s, from, p)
    case None => []
    case Some(m) =>
      MatchEndsLater(s, m.start, p);
      [m] + FindAll(s, m.end, p)
  }

  /** No match is missed: every position where a match could start is the
      start of a found match or lies inside one. */
  lemma {:induction false} FindAllComplete(s: string, from: nat, p: Lazy, a: nat)
    requires NonEmpty(p) && from <= a <= |s|
    requires MatchAt(s, a, p).Some?
    ensures exists i :: 0 <= i < |FindAll(s, from, p)| &&
              FindAll(s, from, p)[i].start <= a < FindAll(s, from, p)[i].end
    decreases |s| + 1 - from
  {
    var m := Exec(s, from, p);
    assert m.Some?;
    var spans := FindAll(s, from, p);
    assert spans[0] == m.value;
    if a >= m.value.end {
      MatchEndsLater(s, m.value.start, p);
      FindAllComplete(s, m.value.end, p, a);
      var rest := FindAll(s, m.value.end, p);
      assert spans == [m.value] + rest;
      var i :| 0 <= i < |rest| && rest[i].start <= a < rest[i].end;
      assert spans[i + 1] == rest[i];
    } else {
      MatchEndsLater(s, m.value.start, p);
    }
  }

  /** The matched text of every span, joined. */
  function Concat(s: string, spans: seq<Span>): string
    requires forall i :: 0 <= i < |spans| ==> spans[i].start <= spans[i].end <= |s|
  {
    if |spans| == 0 then "" else s[spans[0].start..spans[0].end] + Concat(s, spans[1..])
  }

  /** The transform: the first defines match followed by every require match;
      `None` when there is no defines match (the source then throws). */
  function Transform(code: string): Option<string> {
    match Exec(code, 0, Defines)
    case None => None
    case Some(d) =>
      assert NonEmpty(Require);
      Some(code[d.start..d.end] + Concat(code, FindAll(code, 0, Require)))
  }

  /** The transform throws exactly when the code holds no defines statement. */
  lemma TransformFailsIffNoDefines(code: string)
    ensures Transform(code).None? <==> forall a :: 0 <= a <= |code| ==> MatchAt(code, a, Defines).None?
  {
  }

  /** A pattern that matches nowhere yields no spans. */
  lemma NoMatchFindsNothing(s: string, p: Lazy)
    requires NonEmpty(p)
    requires forall a :: 0 <= a <= |s| ==> MatchAt(s, a, p).None?
    ensures FindAll(s, 0, p) == []
  {
    assert Exec(s, 0, p).None?;
  }

  /** With no require statement the transform keeps the defines statement alone. */
  lemma TransformWithoutRequires(code: string)
    requires Exec(code, 0, Defines).Some?
    requires forall a :: 0 <= a <= |code| ==> MatchAt(code, a, Require).None?
    ensures Transform(code) == Some(code[Exec(code, 0, Defines).value.start..Exec(code, 0, Defines).value.end])
  {
    assert NonEmpty(Require);
    NoMatchFindsNothing(code, Require);
    KeepsDefinesAlone(code);
  }

  lemma KeepsDefinesAlone(code: string)
    requires Exec(code, 0, Defines).Some?
    requires NonEmpty(Require) && FindAll(code, 0, Require) == []
    ensures Transform(code) == Some(code[Exec(code, 0, Defines).value.start..Exec(code, 0, Defines).value.end])
  {
    var d := Exec(code, 0, Defines).value;
    var f := code[d.start..d.end];
    assert Concat(code, []) == "";
    assert f + "" == f;
  }

  /** A matched fragment opens with the head, closes with the stop text and
      stays on one line. */
  predicate Fragment(f: string, p: Lazy) {
    EndsAt(f, 0, |f|, p)
  }

  lemma MatchIsFragment(s: string, a: nat, b: nat, p: Lazy)
    requires MatchAt(s, a, p) == Some(b)
    ensures Fragment(s[a..b], p)
  {
    var f := s[a..b];
    assert forall k :: 0 <= k < |p.head| ==> f[k] == s[a + k];
    assert f[|f| - |p.stop|..|f|] == s[b - |p.stop|..b];
    assert forall k :: |p.head| <= k < |f| - |p.stop| ==> f[k] == s[a + k];
  }

  /** The output of the transform is the defines fragment followed by the
      require fragments, each a whole one-line statement of its kind, taken
      left to right without overlap. */
  lemma TransformShape(code: string)
    requires Transform(code).Some?
    ensures var d := Exec(code, 0, Defines).value;
            var rs := FindAll(code, 0, Require);
            && Fragment(code[d.start..d.end], Defines)
            && (forall i :: 0 <= i < |rs| ==> Fragment(code[rs[i].start..rs[i].end], Require))
            && (forall i :: 0 <= i < |rs| - 1 ==> rs[i].end <= rs[i + 1].start)
            && Transform(code) == Some(code[d.start..d.end] + Concat(code, rs))
  {
    var d := Exec(code, 0, Defines).value;
    MatchIsFragment(code, d.start, d.end, Defines);
    assert NonEmpty(Require);
    var rs := FindAll(code, 0, Require);
    forall i | 0 <= i < |rs| ensures Fragment(code[rs[i].start..rs[i].end], Require) {
      MatchIsFragment(code, rs[i].start, rs[i].end, Require);
    }
  }
}
