/** Absolute POSIX paths, as text and as their components, with lexical resolution (no symlinks):
    what os.path.abspath and Path.resolve compute from a directory and a name. */
module Paths {
  type Components = seq<string>

  predicate SlashFree(s: string) {
    forall i :: 0 <= i < |s| ==> s[i] != '/'
  }

  /** A path component that survives resolution. */
  predicate Plain(c: string) {
    c != "" && c != "." && c != ".." && SlashFree(c)
  }

  predicate Normal(cs: Components) {
    forall c <- cs :: Plain(c)
  }

  // ---- Paths as strings ----

  /** "/a/b" for [a, b], without the root's own slash. */
  function Body(cs: Components): string {
    if cs == [] then "" else "/" + cs[0] + Body(cs[1..])
  }

  /** str() of an absolute path. */
  function Str(cs: Components): string {
    if cs == [] then "/" else Body(cs)
  }

  function Slash(s: string): (i: nat)
    ensures i <= |s| && SlashFree(s[..i]) && (i < |s| ==> s[i] == '/')
  {
    if s == "" || s[0] == '/' then 0 else
    var i := Slash(s[1..]) + 1;
    assert s[..i] == [s[0]] + s[1..][..i - 1];
    i
  }

  /** The pieces between slashes. */
  function Split(s: string): Components
    decreases |s|
  {
    var i := Slash(s);
    if i == |s| then [s] else [s[..i]] + Split(s[i + 1..])
  }

  /** Resolve pieces from a directory: "" and "." stay, ".." goes up but not above the root. */
  function Walk(from: Components, pieces: Components): Components
    decreases |pieces|
  {
    if pieces == [] then from
    else if pieces[0] == "" || pieces[0] == "." then Walk(from, pieces[1..])
    else if pieces[0] == ".." then Walk(if from == [] then [] else from[..|from| - 1], pieces[1..])
    else Walk(from + [pieces[0]], pieces[1..])
  }

  /** base / name: an absolute name replaces the base. */
  function Joined(base: Components, name: string): string {
    if name != "" && name[0] == '/' then name else Str(base) + "/" + name
  }

  /** (base / name).resolve(). */
  function Target(base: Components, name: string): Components {
    Walk([], Split(Joined(base, name)))
  }

  lemma BodyStartsWithSlash(cs: Components)
    ensures Body(cs) != "" ==> Body(cs)[0] == '/'
    ensures Body(cs) == "" <==> cs == []
  {
  }

  // ---- What resolution does ----

  lemma {:induction false} WalkIsNormal(from: Components, pieces: Components)
    requires Normal(from) && forall p <- pieces :: SlashFree(p)
    ensures Normal(Walk(from, pieces))
    decreases |pieces|
  {
    if pieces == [] {
    } else {
      var p := pieces[0];
      assert p in pieces;
      assert forall q <- pieces[1..] :: q in pieces;
      if p == "" || p == "." {
        WalkIsNormal(from, pieces[1..]);
      } else if p == ".." {
        WalkIsNormal(if from == [] then [] else from[..|from| - 1], pieces[1..]);
      } else {
        WalkIsNormal(from + [p], pieces[1..]);
      }
    }
  }

  lemma {:induction false} SplitIsSlashFree(s: string)
    ensures forall p <- Split(s) :: SlashFree(p)
    decreases |s|
  {
    var i := Slash(s);
    if i == |s| {
      assert s[..i] == s;
    } else {
      SplitIsSlashFree(s[i + 1..]);
    }
  }

  /** One unfolding of Split, from any place where the first slash is known to be. */
  lemma SplitAt(head: string, tail: string)
    requires SlashFree(head)
    ensures Split(head + "/" + tail) == [head] + Split(tail)
  {
    var s := head + "/" + tail;
    SlashAfter(head, tail);
    assert s[..|head|] == head && s[|head| + 1..] == tail;
  }

  lemma {:induction false} SlashAfter(head: string, tail: string)
    requires SlashFree(head)
    ensures Slash(head + "/" + tail) == |head|
    decreases |head|
  {
    var s := head + "/" + tail;
    if head == "" {
      assert s[0] == '/';
    } else {
      SlashAfter(head[1..], tail);
      assert s[1..] == head[1..] + "/" + tail;
      assert s[0] == head[0] != '/';
    }
  }

  lemma {:induction false} SplitConcat(a: string, b: string)
    ensures Split(a + "/" + b) == Split(a) + Split(b)
    decreases |a|
  {
    hide Split;
    var i := Slash(a);
    if i == |a| {
      assert a[..i] == a;
      SlashFreeSplit(a);
      SplitAt(a, b);
    } else {
      SplitConcat(a[i + 1..], b);
      SplitStep(a[..i], a[i + 1..], b);
      assert a == a[..i] + "/" + a[i + 1..];
    }
  }

  lemma SplitStep(head: string, rest: string, b: string)
    requires SlashFree(head) && Split(rest + "/" + b) == Split(rest) + Split(b)
    ensures Split(head + "/" + rest + "/" + b) == Split(head + "/" + rest) + Split(b)
  {
    hide Split;
    SplitAt(head, rest);
    SplitAt(head, rest + "/" + b);
    assert head + "/" + rest + "/" + b == head + "/" + (rest + "/" + b);
    assert ([head] + Split(rest)) + Split(b) == [head] + (Split(rest) + Split(b));
  }

  lemma {:induction false} WalkConcat(from: Components, a: Components, b: Components)
    ensures Walk(from, a + b) == Walk(Walk(from, a), b)
    decreases |a|
  {
    if a == [] {
      assert a + b == b;
    } else {
      assert (a + b)[1..] == a[1..] + b;
      var next := if a[0] == "" || a[0] == "." then from
                  else if a[0] == ".." then (if from == [] then [] else from[..|from| - 1])
                  else from + [a[0]];
      WalkConcat(next, a[1..], b);
    }
  }

  lemma {:induction false} WalkPlain(from: Components, cs: Components)
    requires Normal(cs)
    ensures Walk(from, cs) == from + cs
    decreases |cs|
  {
    if cs == [] {
      assert from + [] == from;
    } else {
      assert cs[0] in cs;
      WalkPlain(from + [cs[0]], cs[1..]);
      assert from + [cs[0]] + cs[1..] == from + cs;
    }
  }

  /** "/a/b" splits into the empty piece before the root's slash and the components. */
  lemma {:induction false} SplitBody(cs: Components)
    requires Normal(cs)
    ensures Split(Body(cs)) == [""] + cs
    decreases |cs|
  {
    hide Split;
    if cs == [] {
      SlashFreeSplit("");
    } else {
      assert cs[0] in cs;
      assert Normal(cs[1..]) by { assert forall c <- cs[1..] :: c in cs; }
      SplitBody(cs[1..]);
      SplitHead(cs[0], cs[1..]);
      assert Body(cs) == "" + "/" + (cs[0] + Body(cs[1..]));
      SplitAt("", cs[0] + Body(cs[1..]));
      assert cs == [cs[0]] + cs[1..];
    }
  }

  lemma SplitHead(head: string, cs: Components)
    requires SlashFree(head) && Split(Body(cs)) == [""] + cs
    ensures Split(head + Body(cs)) == [head] + cs
  {
    hide Split;
    if cs == [] {
      assert head + Body(cs) == head;
      SlashFreeSplit(head);
      assert [head] + cs == [head];
    } else {
      var rest := cs[0] + Body(cs[1..]);
      assert Body(cs) == "" + "/" + rest;
      SplitAt("", rest);
      assert Split(rest) == ([""] + Split(rest))[1..] == ([""] + cs)[1..] == cs;
      assert head + Body(cs) == head + "/" + rest;
      SplitAt(head, rest);
    }
  }

  lemma {:induction false} SlashFreeSplit(s: string)
    requires SlashFree(s)
    ensures Slash(s) == |s| && Split(s) == [s]
    decreases |s|
  {
    if s == "" {
    } else {
      SlashFreeSplit(s[1..]);
    }
    assert s[..|s|] == s;
  }

  /** Resolving a normalised path gives the path back. */
  lemma ResolveRoundTrip(cs: Components)
    requires Normal(cs)
    ensures Walk([], Split(Str(cs))) == cs
  {
    if cs == [] {
      assert "/" == "" + "/" + "";
      SplitConcat("", "");
      SlashFreeSplit("");
      assert Split("/") == [""] + [""];
      WalkConcat([], [""], [""]);
    } else {
      SplitBody(cs);
      WalkConcat([], [""], cs);
      WalkPlain([], cs);
    }
  }

  /** A relative member is resolved from the base, an absolute one from the root. */
  lemma TargetIsWalk(base: Components, name: string)
    requires Normal(base)
    ensures Target(base, name) == Walk(if name != "" && name[0] == '/' then [] else base, Split(name))
  {
    if !(name != "" && name[0] == '/') {
      SplitConcat(Str(base), name);
      WalkConcat([], Split(Str(base)), Split(name));
      ResolveRoundTrip(base);
    }
  }

  // ---- Names that mean the same ----

  predicate Relative(name: string) {
    name == "" || name[0] != '/'
  }

  /** The pieces that mean something: a doubled slash, a slash at the end and "." do not. */
  function Significant(pieces: Components): Components {
    if pieces == [] then []
    else if pieces[0] == "" || pieces[0] == "." then Significant(pieces[1..])
    else [pieces[0]] + Significant(pieces[1..])
  }

  /** Resolution seen from the last piece: "" and "." stay where the others lead, ".." goes one level up
      from there, and any other piece one level down. */
  lemma LastPiece(from: Components, pieces: Components, p: string)
    ensures var here := Walk(from, pieces);
            Walk(from, pieces + [p]) == if p == "" || p == "." then here
                                        else if p == ".." then (if here == [] then [] else here[..|here| - 1])
                                        else here + [p]
  {
    WalkConcat(from, pieces, [p]);
  }

  lemma {:induction false} SignificantPieces(from: Components, pieces: Components)
    ensures Walk(from, Significant(pieces)) == Walk(from, pieces)
    decreases |pieces|
  {
    if pieces == [] {
    } else {
      var p, rest := pieces[0], pieces[1..];
      assert ([p] + Significant(rest))[1..] == Significant(rest);
      SignificantPieces(from, rest);
      SignificantPieces(if from == [] then [] else from[..|from| - 1], rest);
      SignificantPieces(from + [p], rest);
    }
  }

  /** A relative name resolves as its pieces do from where the base resolves to. */
  lemma RelativeTarget(base: Components, name: string)
    requires Relative(name)
    ensures Target(base, name) == Walk(Walk([], Split(Str(base))), Split(name))
  {
    SplitConcat(Str(base), name);
    WalkConcat([], Split(Str(base)), Split(name));
  }

  /** Relative names with the same significant pieces name the same place, from any base. */
  lemma SameSignificantPieces(base: Components, name: string, other: string)
    requires Relative(name) && Relative(other) && Significant(Split(name)) == Significant(Split(other))
    ensures Target(base, name) == Target(base, other)
  {
    hide Split, Walk, Significant;
    var from := Walk([], Split(Str(base)));
    RelativeTarget(base, name);
    RelativeTarget(base, other);
    SignificantPieces(from, Split(name));
    SignificantPieces(from, Split(other));
  }

  /** So a leading "./" means nothing. */
  lemma DotSlashIsNothing(base: Components, name: string)
    requires Relative(name)
    ensures Target(base, "./" + name) == Target(base, name)
  {
    SplitAt(".", name);
    assert "./" + name == "." + "/" + name;
    hide Split;
    assert (["."] + Split(name))[1..] == Split(name);
    SameSignificantPieces(base, "./" + name, name);
  }

  /** Without "..", a relative name leads down from the base through its significant pieces, and two names
      lead to the same place exactly if these agree. */
  lemma WithoutUps(base: Components, name: string, other: string)
    requires Normal(base) && Relative(name) && Relative(other) && ".." !in Split(name) && ".." !in Split(other)
    ensures Target(base, name) == base + Significant(Split(name))
    ensures Target(base, name) == Target(base, other) <==> Significant(Split(name)) == Significant(Split(other))
  {
    hide Split, Walk, Significant, Normal, Target;
    DownOnly(base, name);
    DownOnly(base, other);
    var x, y := Significant(Split(name)), Significant(Split(other));
    assert (base + x)[|base|..] == x && (base + y)[|base|..] == y;
  }

  lemma DownOnly(base: Components, name: string)
    requires Normal(base) && Relative(name) && ".." !in Split(name)
    ensures Target(base, name) == base + Significant(Split(name))
  {
    TargetIsWalk(base, name);
    SignificantPieces(base, Split(name));
    SplitIsSlashFree(name);
    SignificantIsNormal(Split(name));
    WalkPlain(base, Significant(Split(name)));
  }

  lemma {:induction false} SignificantIsNormal(pieces: Components)
    requires ".." !in pieces && forall p <- pieces :: SlashFree(p)
    ensures Normal(Significant(pieces))
    decreases |pieces|
  {
    if pieces == [] {
    } else {
      assert forall p <- pieces[1..] :: p in pieces;
      assert pieces[0] in pieces;
      SignificantIsNormal(pieces[1..]);
    }
  }

  /** Going down and up again anywhere in a name means nothing either. */
  lemma DownThenUp(from: Components, before: Components, c: string, after: Components)
    requires Plain(c)
    ensures Walk(from, before + [c, ".."] + after) == Walk(from, before + after)
  {
    hide Walk;
    WalkConcat(from, before + [c, ".."], after);
    WalkConcat(from, before, after);
    assert before + [c, ".."] == before + [c] + [".."];
    LastPiece(from, before, c);
    LastPiece(from, before + [c], "..");
    var here := Walk(from, before);
    assert (here + [c])[..|here|] == here;
  }

  lemma TargetIsNormal(base: Components, name: string)
    ensures Normal(Target(base, name))
  {
    SplitIsSlashFree(Joined(base, name));
    WalkIsNormal([], Split(Joined(base, name)));
  }
}
