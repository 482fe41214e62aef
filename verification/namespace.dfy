/** ClojureScript namespace names: their segments, the file that holds them and
    the object they denote in the global namespace tree. */
module Namespace {
  import opened JsValue
  import Text

  /** The segments of a namespace name: the first `-` becomes `_`, then the
      name is split on every `.`. */
  function Parts(ns: string): seq<string> {
    Text.Split(Text.ReplaceFirst(ns, '-', '_'), '.')
  }

  /** There is one segment more than there are dots, no segment holds a dot,
      and the segments rejoined with dots give the name with its first `-`
      turned into `_`. */
  lemma PartsShape(ns: string)
    ensures |Parts(ns)| == Text.Count(ns, '.') + 1
    ensures forall i :: 0 <= i < |Parts(ns)| ==> '.' !in Parts(ns)[i]
    ensures Text.Join(Parts(ns), ".") == Text.ReplaceFirst(ns, '-', '_')
  {
    var s := Text.ReplaceFirst(ns, '-', '_');
    Text.SplitCount(s, '.');
    Text.ReplaceFirstCountOther(ns, '-', '_', '.');
    Text.SplitPartsFree(s, '.');
    Text.JoinSplit(s, '.');
  }

  /** A name is recovered by rejoining its segments exactly when it has no
      `-` to rewrite. */
  lemma RejoinIffNoDash(ns: string)
    ensures Text.Join(Parts(ns), ".") == ns <==> '-' !in ns
  {
    PartsShape(ns);
    if '-' !in ns {
      Text.ReplaceFirstAbsent(ns, '-', '_');
    }
  }

  /** Segments free of `.` and `-` survive joining with dots and splitting
      again: such segment lists and their dotted names correspond one to
      one. */
  lemma PartsRoundTrip(parts: seq<string>)
    requires |parts| >= 1
    requires forall i :: 0 <= i < |parts| ==> '.' !in parts[i] && '-' !in parts[i]
    ensures Parts(Text.Join(parts, ".")) == parts
  {
    var ns := Text.Join(parts, ".");
    JoinFree(parts, '.', '-');
    Text.ReplaceFirstAbsent(ns, '-', '_');
    Text.SplitJoin(parts, '.');
  }

  /** Joining parts that avoid `c` with a separator other than `c` avoids `c`. */
  lemma {:induction false} JoinFree(parts: seq<string>, sep: char, c: char)
    requires c != sep
    requires forall i :: 0 <= i < |parts| ==> c !in parts[i]
    ensures c !in Text.Join(parts, [sep])
  {
    if |parts| > 1 {
      JoinFree(parts[1..], sep, c);
    }
  }

  /** The file of a namespace, relative to the output directory. */
  function ToPath(ns: string): string {
    Text.Join(Parts(ns), "/") + ".js"
  }

  /** The file path is the name with its first `-` turned into `_`, every `.`
      turned into `/`, and `.js` appended. */
  lemma ToPathIsRewrite(ns: string)
    ensures ToPath(ns) == Text.ReplaceAll(Text.ReplaceFirst(ns, '-', '_'), '.', '/') + ".js"
  {
    Text.JoinSplitReplaces(Text.ReplaceFirst(ns, '-', '_'), '.', '/');
  }

  /** One step of the walk: index a present value, keep an absent one. */
  function Descend(base: Value, segment: string): Value {
    if Truthy(base) then Prop(base, segment) else base
  }

  /** `parts.reduce(Descend, root)`: a left fold over the segments. */
  function Reduce(root: Value, parts: seq<string>): Value
    decreases |parts|
  {
    if |parts| == 0 then root
    else Descend(Reduce(root, parts[..|parts| - 1]), parts[|parts| - 1])
  }

  /** The walk written front to back, stopping at the first absent value:
      the reading of the fold as a path lookup. */
  function Walk(root: Value, parts: seq<string>): Value
    decreases |parts|
  {
    if |parts| == 0 || !Truthy(root) then root
    else Walk(Prop(root, parts[0]), parts[1..])
  }

  /** The object a namespace name denotes, starting at the namespace root. */
  function ToObject(root: Value, ns: string): Value {
    Reduce(root, Parts(ns))
  }

  lemma {:induction false} WalkSnoc(root: Value, parts: seq<string>, seg: string)
    ensures Walk(root, parts + [seg]) == Descend(Walk(root, parts), seg)
    decreases |parts|
  {
    if |parts| == 0 {
      assert parts + [seg] == [seg];
      assert !Truthy(root) ==> Walk(root, [seg]) == root;
    } else if Truthy(root) {
      assert (parts + [seg])[1..] == parts[1..] + [seg];
      WalkSnoc(Prop(root, parts[0]), parts[1..], seg);
    }
  }

  /** The fold and the front-to-back walk agree on every input. */
  lemma {:induction false} ReduceIsWalk(root: Value, parts: seq<string>)
    ensures Reduce(root, parts) == Walk(root, parts)
    decreases |parts|
  {
    if |parts| > 0 {
      var init := parts[..|parts| - 1];
      ReduceIsWalk(root, init);
      WalkSnoc(root, init, parts[|parts| - 1]);
      assert init + [parts[|parts| - 1]] == parts;
    }
  }

  /** Once a prefix resolves to an absent value, the whole walk yields that
      same value. */
  lemma {:induction false} AbsentStaysAbsent(root: Value, parts: seq<string>, i: nat)
    requires i <= |parts|
    requires !Truthy(Reduce(root, parts[..i]))
    ensures Reduce(root, parts) == Reduce(root, parts[..i])
    decreases |parts| - i
  {
    if i < |parts| {
      assert parts[..i + 1][..i] == parts[..i];
      assert Reduce(root, parts[..i + 1]) == Reduce(root, parts[..i]);
      AbsentStaysAbsent(root, parts, i + 1);
    } else {
      assert parts[..i] == parts;
    }
  }

  /** The walk yields a present value exactly when every prefix does. */
  lemma PresentIffEveryPrefix(root: Value, parts: seq<string>)
    ensures Truthy(Reduce(root, parts)) <==>
            forall i :: 0 <= i <= |parts| ==> Truthy(Reduce(root, parts[..i]))
  {
    if Truthy(Reduce(root, parts)) {
      forall i | 0 <= i <= |parts| ensures Truthy(Reduce(root, parts[..i])) {
        if !Truthy(Reduce(root, parts[..i])) {
          AbsentStaysAbsent(root, parts, i);
        }
      }
    } else {
      assert parts[..|parts|] == parts;
    }
  }
}
