/** `_validate_members` of tools/build_valkey.py: reject tar members that would land outside the
    extraction directory. */
module TarMembers {
  import opened Wrappers
  import opened Paths

  /** The test of the source: a string prefix that ends in a separator. */
  predicate Accepted(base: Components, name: string) {
    Str(base) + "/" <= Str(Target(base, name))
  }

  /** What it is meant to test: the target lies strictly below the base. */
  predicate StrictlyBelow(base: Components, target: Components) {
    |base| < |target| && target[..|base|] == base
  }

  /** Member i does not land strictly below the base (below the root, none does), all earlier ones do. */
  predicate FirstEscape(base: Components, names: seq<string>, i: nat) {
    && i < |names|
    && (base == [] || !StrictlyBelow(base, Target(base, names[i])))
    && (forall j :: 0 <= j < i ==> StrictlyBelow(base, Target(base, names[j])))
  }

  /** The loop: report the first member that escapes. */
  method ValidateMembers(base: Components, names: seq<string>) returns (escaping: Option<string>)
    requires Normal(base)
    ensures escaping.None? <==> names == [] || (base != [] && forall n <- names :: StrictlyBelow(base, Target(base, n)))
    ensures escaping.Some? ==> exists i: nat :: FirstEscape(base, names, i) && names[i] == escaping.value
  {
    for i := 0 to |names|
      invariant i > 0 ==> base != []
      invariant forall j :: 0 <= j < i ==> StrictlyBelow(base, Target(base, names[j]))
    {
      PrefixTestIsContainment(base, names[i]);
      if !(Str(base) + "/" <= Str(Target(base, names[i]))) {
        assert FirstEscape(base, names, i);
        return Some(names[i]);
      }
    }
    escaping := None;
  }

  // ---- The string test is component containment ----

  lemma ConsPrefix(c: char, a: string, d: char, b: string)
    ensures [c] + a <= [d] + b <==> c == d && a <= b
  {
    var x, y := [c] + a, [d] + b;
    assert x[1..] == a && y[1..] == b;
    if x <= y {
      assert c == x[0] == y[0] == d;
      assert forall i :: 0 <= i < |a| ==> a[i] == x[i + 1] == y[i + 1] == b[i];
    }
  }

  /** Cutting slash-free heads off two texts whose tails start with a slash. */
  lemma {:induction false} CutHead(x: string, p: string, y: string, q: string)
    requires SlashFree(x) && SlashFree(y) && p != "" && p[0] == '/' && (q != "" ==> q[0] == '/')
    ensures x + p <= y + q <==> x == y && p <= q
    decreases |x|
  {
    if x == "" {
      assert x + p == p;
      if y == "" {
        assert y + q == q;
      } else {
        assert (y + q)[0] == y[0] != p[0];
      }
    } else if y == "" {
      assert y + q == q;
      assert (x + p)[0] == x[0] != '/';
    } else {
      CutHead(x[1..], p, y[1..], q);
      ConsPrefix(x[0], x[1..] + p, y[0], y[1..] + q);
      assert x + p == [x[0]] + (x[1..] + p);
      assert y + q == [y[0]] + (y[1..] + q);
      assert x == [x[0]] + x[1..] && y == [y[0]] + y[1..];
    }
  }

  lemma {:induction false} BodyPrefix(base: Components, target: Components)
    requires Normal(base) && Normal(target)
    ensures Body(base) + "/" <= Body(target) <==> StrictlyBelow(base, target)
  {
    BodyStartsWithSlash(target);
    if base == [] {
      assert Body(base) + "/" == "/";
    } else if target != [] {
      var p := Body(base[1..]) + "/";
      var q := Body(target[1..]);
      BodyStartsWithSlash(base[1..]);
      BodyStartsWithSlash(target[1..]);
      assert base[0] in base && target[0] in target;
      CutHead(base[0], p, target[0], q);
      BodyPrefix(base[1..], target[1..]);
      ConsPrefix('/', base[0] + p, '/', target[0] + q);
      assert Body(base) + "/" == "/" + (base[0] + p);
      assert Body(target) == "/" + (target[0] + q);
      assert StrictlyBelow(base, target) <==> base[0] == target[0] && StrictlyBelow(base[1..], target[1..]) by {
        Unfold(base, target);
      }
    } else {
      assert Body(base) + "/" != "";
    }
  }

  lemma Unfold(base: Components, target: Components)
    requires base != [] && target != []
    ensures StrictlyBelow(base, target) <==> base[0] == target[0] && StrictlyBelow(base[1..], target[1..])
  {
    if |base| < |target| {
      assert target[..|base|] == [target[0]] + target[1..][..|base| - 1];
      assert base == [base[0]] + base[1..];
    }
  }

  /** For every base and every member name: the prefix test accepts exactly the members that resolve
      strictly below the base, provided the base is not the root; below the root it accepts nothing,
      because str(root) + "/" is "//". */
  lemma PrefixTestIsContainment(base: Components, name: string)
    requires Normal(base)
    ensures Accepted(base, name) <==> base != [] && StrictlyBelow(base, Target(base, name))
  {
    var t := Target(base, name);
    TargetIsNormal(base, name);
    BodyPrefix(base, t);
    if base == [] {
      assert Str(base) + "/" == "//";
      if t != [] {
        assert t[0] in t;
        assert Str(t)[1] == t[0][0];
      }
    } else if t == [] {
      assert Str(t) == "/" && |Str(base)| >= 1;
    }
  }

  /** k times "..". */
  function Ups(k: nat): Components {
    if k == 0 then [] else [".."] + Ups(k - 1)
  }

  lemma {:induction false} WalkUps(from: Components, k: nat)
    ensures Walk(from, Ups(k)) == if k <= |from| then from[..|from| - k] else []
  {
    if k == 0 {
      assert from[..|from|] == from;
    } else {
      var up := if from == [] then [] else from[..|from| - 1];
      WalkUps(up, k - 1);
      assert Ups(k)[1..] == Ups(k - 1);
    }
  }

  /** Where a member that goes up k levels and then down through `down` lands. */
  lemma UpsThenDownTarget(base: Components, name: string, k: nat, down: Components)
    requires Normal(base) && Normal(down) && Split(name) == Ups(k) + down && name != "" && name[0] != '/'
    ensures Target(base, name) == (if k <= |base| then base[..|base| - k] else []) + down
  {
    TargetIsWalk(base, name);
    WalkConcat(base, Ups(k), down);
    WalkUps(base, k);
    WalkPlain(if k <= |base| then base[..|base| - k] else [], down);
  }

  lemma BelowAfterCommon(kept: Components, lost: Components, down: Components)
    ensures StrictlyBelow(kept + lost, kept + down) <==> StrictlyBelow(lost, down)
  {
    var b, t := kept + lost, kept + down;
    if |lost| < |down| {
      assert t[..|b|] == kept + down[..|lost|];
      assert b[|kept|..] == lost && (kept + down[..|lost|])[|kept|..] == down[..|lost|];
    }
  }

  /** Runs of "..": a member that goes up k levels and then down through `down` is accepted exactly if
      the way down leads back through the levels it left, and further. */
  lemma UpsThenDown(base: Components, name: string, k: nat, down: Components)
    requires Normal(base) && base != [] && Normal(down)
    requires Split(name) == Ups(k) + down && name != "" && name[0] != '/'
    ensures Accepted(base, name) <==> StrictlyBelow(if k <= |base| then base[|base| - k..] else base, down)
  {
    hide Target, Accepted, StrictlyBelow, Split;
    var kept := if k <= |base| then |base| - k else 0;
    UpsThenDownTarget(base, name, k, down);
    PrefixTestIsContainment(base, name);
    assert base == base[..kept] + base[kept..];
    BelowAfterCommon(base[..kept], base[kept..], down);
  }

  /** Doubled slashes, slashes at the end and "." change neither where a member lands nor whether it is
      accepted; in particular "./name" is accepted exactly if "name" is. */
  lemma NoiseIsIgnored(base: Components, name: string, other: string)
    requires Relative(name) && Relative(other) && Significant(Split(name)) == Significant(Split(other))
    ensures Accepted(base, name) == Accepted(base, other)
    ensures Accepted(base, "./" + name) == Accepted(base, name)
  {
    hide Target;
    SameSignificantPieces(base, name, other);
    DotSlashIsNothing(base, name);
  }

  /** A member without ".." that names anything at all is accepted; one that names nothing is not. */
  lemma MembersWithoutUps(base: Components, name: string)
    requires Normal(base) && base != [] && Relative(name) && ".." !in Split(name)
    ensures Accepted(base, name) <==> Significant(Split(name)) != []
  {
    hide Accepted, Target, Split, Significant, Normal;
    DownOnly(base, name);
    PrefixTestIsContainment(base, name);
    assert (base + Significant(Split(name)))[..|base|] == base;
  }
}
