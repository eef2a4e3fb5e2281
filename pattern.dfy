/**
 * A backtracking matcher for the small family of regular expressions that the
 * rule-based stage builds: literal text, a one-character class, an optional
 * one-character class and a starred one-character class, followed by a single
 * capturing group `([^stop]+)` at the end. Alternatives are tried in the order
 * Python's `re` engine tries them (an optional item first present, then absent;
 * a star first as long as possible, then one shorter at a time), so `Search`
 * returns the group that `re.search(pattern, s).group(1)` returns.
 *
 * `AtomsMatch` gives the atoms a declarative meaning; the lemmas below prove the
 * engine sound and complete against it, and the search leftmost.
 */
module Pattern {
  import opened Wrappers
  import opened PyText

  /** One element of such a regular expression. */
  datatype Atom =
    | Lit(w: string)        // the escaped literal text w
    | One(cs: set<char>)    // [cs]
    | Opt(cs: set<char>)    // [cs]?, also (?:a|b)? when a and b are single characters
    | Star(cs: set<char>)   // [cs]*

  /** `atoms([^stop]+)`: the atoms, then one capturing group. */
  datatype Template = Template(atoms: seq<Atom>, stop: set<char>)

  /** The bounds of the captured group in the searched string. */
  datatype Group = Group(start: nat, end: nat)

  /** Length of the run of characters of `cs` starting at `i`. */
  function RunIn(s: string, i: nat, cs: set<char>): (n: nat)
    requires i <= |s|
    ensures i + n <= |s|
    ensures forall k | i <= k < i + n :: s[k] in cs
    ensures i + n < |s| ==> s[i + n] !in cs
    decreases |s| - i
  {
    if i < |s| && s[i] in cs then 1 + RunIn(s, i + 1, cs) else 0
  }

  /** Length of the run of characters outside `cs` starting at `i`. */
  function RunOut(s: string, i: nat, cs: set<char>): (n: nat)
    requires i <= |s|
    ensures i + n <= |s|
    ensures forall k | i <= k < i + n :: s[k] !in cs
    ensures i + n < |s| ==> s[i + n] in cs
    decreases |s| - i
  {
    if i < |s| && s[i] !in cs then 1 + RunOut(s, i + 1, cs) else 0
  }

  /** What a successful match guarantees about its group. */
  ghost predicate GoodGroup(s: string, stop: set<char>, from: nat, g: Group)
  {
    from <= g.start < g.end <= |s|
    && NoneIn(s[g.start..g.end], stop)
    && (g.end == |s| || s[g.end] in stop)
  }

  /** The first match (in the engine's order of alternatives) of `atoms([^stop]+)` anchored at `i`. */
  function MatchAt(atoms: seq<Atom>, stop: set<char>, s: string, i: nat): (r: Option<Group>)
    requires i <= |s|
    ensures r.Some? ==> GoodGroup(s, stop, i, r.value)
    decreases |atoms|, 1, 0
  {
    if atoms == [] then
      var n := RunOut(s, i, stop);
      if n > 0 then
        Some(Group(i, i + n))
      else None
    else
      match atoms[0]
      case Lit(w) =>
        if OccursAt(s, w, i) then MatchAt(atoms[1..], stop, s, i + |w|) else None
      case One(cs) =>
        if i < |s| && s[i] in cs then MatchAt(atoms[1..], stop, s, i + 1) else None
      case Opt(cs) =>
        if i < |s| && s[i] in cs && MatchAt(atoms[1..], stop, s, i + 1).Some?
        then MatchAt(atoms[1..], stop, s, i + 1)
        else MatchAt(atoms[1..], stop, s, i)
      case Star(cs) =>
        TryStar(atoms[1..], stop, s, i, RunIn(s, i, cs))
  }

  /** Backtracking over a star: the longest run first, then one character shorter at a time. */
  function TryStar(rest: seq<Atom>, stop: set<char>, s: string, i: nat, k: nat): (r: Option<Group>)
    requires i + k <= |s|
    ensures r.Some? ==> GoodGroup(s, stop, i, r.value)
    decreases |rest|, 2, k
  {
    match MatchAt(rest, stop, s, i + k)
    case Some(g) => Some(g)
    case None => if k == 0 then None else TryStar(rest, stop, s, i, k - 1)
  }

  /** `re.search`: the leftmost starting position at which the template matches. */
  function SearchFrom(t: Template, s: string, i: nat): (r: Option<Group>)
    requires i <= |s| + 1
    ensures r.Some? ==> GoodGroup(s, t.stop, i, r.value)
    decreases |s| + 1 - i
  {
    if i > |s| then None
    else match MatchAt(t.atoms, t.stop, s, i)
      case Some(g) => Some(g)
      case None => SearchFrom(t, s, i + 1)
  }

  /** The captured text of `re.search(t, s)`, if the search succeeds. */
  function Search(t: Template, s: string): (r: Option<string>)
    ensures r.Some? ==> r.value != [] && NoneIn(r.value, t.stop) && Contains(s, r.value)
  {
    match SearchFrom(t, s, 0)
    case None => None
    case Some(g) =>
      assert OccursAt(s, s[g.start..g.end], g.start);
      Some(s[g.start..g.end])
  }

  /**
   * Declarative meaning of the atoms: they can match `s[i..j]`, in some way
   * of choosing each optional item and the length of each starred run.
   */
  ghost predicate AtomsMatch(atoms: seq<Atom>, s: string, i: nat, j: nat)
    decreases |atoms|
  {
    i <= j <= |s| &&
    if atoms == [] then i == j
    else match atoms[0]
      case Lit(w) => OccursAt(s, w, i) && AtomsMatch(atoms[1..], s, i + |w|, j)
      case One(cs) => i < |s| && s[i] in cs && AtomsMatch(atoms[1..], s, i + 1, j)
      case Opt(cs) => (i < |s| && s[i] in cs && AtomsMatch(atoms[1..], s, i + 1, j)) || AtomsMatch(atoms[1..], s, i, j)
      case Star(cs) => exists p | i <= p <= i + RunIn(s, i, cs) :: AtomsMatch(atoms[1..], s, p, j)
  }

  /** The template `atoms([^stop]+)` matches at `p`, with a non-empty group. */
  ghost predicate MatchesAt(t: Template, s: string, p: nat)
  {
    exists j | p <= j <= |s| :: AtomsMatch(t.atoms, s, p, j) && RunOut(s, j, t.stop) > 0
  }

  /** The engine's match at `i` is a way for the atoms to match, followed by the longest run outside `stop`. */
  lemma MatchAtSound(atoms: seq<Atom>, stop: set<char>, s: string, i: nat)
    requires i <= |s|
    ensures MatchAt(atoms, stop, s, i).Some? ==>
      && AtomsMatch(atoms, s, i, MatchAt(atoms, stop, s, i).value.start)
      && MatchAt(atoms, stop, s, i).value.end == MatchAt(atoms, stop, s, i).value.start + RunOut(s, MatchAt(atoms, stop, s, i).value.start, stop)
    decreases |atoms|, 1, 0
  {
    if atoms != [] {
      match atoms[0]
      case Lit(w) =>
        if OccursAt(s, w, i) { MatchAtSound(atoms[1..], stop, s, i + |w|); }
      case One(cs) =>
        if i < |s| && s[i] in cs { MatchAtSound(atoms[1..], stop, s, i + 1); }
      case Opt(cs) =>
        if i < |s| { MatchAtSound(atoms[1..], stop, s, i + 1); }
        MatchAtSound(atoms[1..], stop, s, i);
      case Star(cs) =>
        TryStarSound(atoms[1..], stop, s, i, RunIn(s, i, cs));
    }
  }

  /** The engine's match after a star is a way to match the rest from one of the run's end points. */
  lemma TryStarSound(rest: seq<Atom>, stop: set<char>, s: string, i: nat, k: nat)
    requires i + k <= |s|
    ensures TryStar(rest, stop, s, i, k).Some? ==>
      && (exists p | i <= p <= i + k :: AtomsMatch(rest, s, p, TryStar(rest, stop, s, i, k).value.start))
      && TryStar(rest, stop, s, i, k).value.end == TryStar(rest, stop, s, i, k).value.start + RunOut(s, TryStar(rest, stop, s, i, k).value.start, stop)
    decreases |rest|, 2, k
  {
    MatchAtSound(rest, stop, s, i + k);
    if MatchAt(rest, stop, s, i + k).None? && k > 0 {
      TryStarSound(rest, stop, s, i, k - 1);
    }
  }

  /** Whenever the atoms can match and a group can follow, the engine finds a match. */
  lemma MatchAtComplete(atoms: seq<Atom>, stop: set<char>, s: string, i: nat, j: nat)
    requires AtomsMatch(atoms, s, i, j) && RunOut(s, j, stop) > 0
    ensures MatchAt(atoms, stop, s, i).Some?
    decreases |atoms|, 1, 0
  {
    if atoms != [] {
      match atoms[0]
      case Lit(w) =>
        MatchAtComplete(atoms[1..], stop, s, i + |w|, j);
      case One(cs) =>
        MatchAtComplete(atoms[1..], stop, s, i + 1, j);
      case Opt(cs) =>
        if i < |s| && s[i] in cs && AtomsMatch(atoms[1..], s, i + 1, j) {
          MatchAtComplete(atoms[1..], stop, s, i + 1, j);
        } else {
          MatchAtComplete(atoms[1..], stop, s, i, j);
        }
      case Star(cs) =>
        var p :| i <= p <= i + RunIn(s, i, cs) && AtomsMatch(atoms[1..], s, p, j);
        TryStarComplete(atoms[1..], stop, s, i, RunIn(s, i, cs), p, j);
    }
  }

  /** Backtracking over a star misses no end point of the run. */
  lemma TryStarComplete(rest: seq<Atom>, stop: set<char>, s: string, i: nat, k: nat, p: nat, j: nat)
    requires i <= p <= i + k <= |s|
    requires AtomsMatch(rest, s, p, j) && RunOut(s, j, stop) > 0
    ensures TryStar(rest, stop, s, i, k).Some?
    decreases |rest|, 2, k
  {
    if MatchAt(rest, stop, s, i + k).None? {
      if p == i + k {
        MatchAtComplete(rest, stop, s, p, j);
      } else {
        TryStarComplete(rest, stop, s, i, k - 1, p, j);
      }
    }
  }

  /** The engine's anchored match succeeds exactly when the template matches there. */
  lemma MatchAtMeaning(t: Template, s: string, p: nat)
    requires p <= |s|
    ensures MatchAt(t.atoms, t.stop, s, p).Some? <==> MatchesAt(t, s, p)
  {
    MatchAtSound(t.atoms, t.stop, s, p);
    if MatchesAt(t, s, p) {
      var j :| p <= j <= |s| && AtomsMatch(t.atoms, s, p, j) && RunOut(s, j, t.stop) > 0;
      MatchAtComplete(t.atoms, t.stop, s, p, j);
    }
  }

  /** The template matches at no position in `[i, p)`. */
  predicate NoMatchBefore(t: Template, s: string, i: nat, p: nat)
    requires p <= |s| + 1
  {
    forall q: nat | i <= q < p :: MatchAt(t.atoms, t.stop, s, q).None?
  }

  /** The search returns the engine's match at the leftmost position from `i` where there is one. */
  lemma {:induction false} SearchFromLeftmost(t: Template, s: string, i: nat)
    requires i <= |s| + 1
    ensures SearchFrom(t, s, i).Some? ==> exists p: nat | i <= p <= |s| ::
      MatchAt(t.atoms, t.stop, s, p) == SearchFrom(t, s, i) && NoMatchBefore(t, s, i, p)
    ensures SearchFrom(t, s, i).None? ==> NoMatchBefore(t, s, i, |s| + 1)
    decreases |s| + 1 - i
  {
    if i <= |s| {
      if MatchAt(t.atoms, t.stop, s, i).None? {
        SearchFromLeftmost(t, s, i + 1);
        assert SearchFrom(t, s, i) == SearchFrom(t, s, i + 1);
        if SearchFrom(t, s, i + 1).Some? {
          var p: nat :| i + 1 <= p <= |s| && MatchAt(t.atoms, t.stop, s, p) == SearchFrom(t, s, i + 1)
            && NoMatchBefore(t, s, i + 1, p);
          assert NoMatchBefore(t, s, i, p);
        }
      } else {
        assert MatchAt(t.atoms, t.stop, s, i) == SearchFrom(t, s, i) && NoMatchBefore(t, s, i, i);
      }
    }
  }

  /** The template matches at no position before `p`. */
  ghost predicate NowhereBefore(t: Template, s: string, p: nat)
  {
    forall q: nat | q < p :: !MatchesAt(t, s, q)
  }

  /** No position before `p` where the engine finds no match is a position where the template matches. */
  lemma NoMatchNowhere(t: Template, s: string, p: nat)
    requires p <= |s| + 1 && NoMatchBefore(t, s, 0, p)
    ensures NowhereBefore(t, s, p)
  {
    forall q: nat | q < p ensures !MatchesAt(t, s, q) {
      MatchAtMeaning(t, s, q);
    }
  }

  /** The search fails exactly when the template matches at no position of `s`. */
  lemma SearchNone(t: Template, s: string)
    ensures Search(t, s).None? <==> NowhereBefore(t, s, |s| + 1)
  {
    SearchFromLeftmost(t, s, 0);
    if SearchFrom(t, s, 0).Some? {
      var p: nat :| p <= |s| && MatchAt(t.atoms, t.stop, s, p) == SearchFrom(t, s, 0) && NoMatchBefore(t, s, 0, p);
      MatchAtMeaning(t, s, p);
    } else {
      NoMatchNowhere(t, s, |s| + 1);
    }
  }

  /**
   * A successful search returns the group of a match at the leftmost position
   * where the template matches: the atoms match `s[p..j]`, and the group is the
   * run outside `stop` from `j`.
   */
  lemma SearchFound(t: Template, s: string)
    ensures Search(t, s).Some? ==> exists p: nat, j: nat | p <= j <= |s| ::
      && NowhereBefore(t, s, p)
      && AtomsMatch(t.atoms, s, p, j)
      && Search(t, s).value == s[j..j + RunOut(s, j, t.stop)]
  {
    SearchFromLeftmost(t, s, 0);
    if SearchFrom(t, s, 0).Some? {
      var p: nat :| p <= |s| && MatchAt(t.atoms, t.stop, s, p) == SearchFrom(t, s, 0) && NoMatchBefore(t, s, 0, p);
      var g := SearchFrom(t, s, 0).value;
      MatchAtSound(t.atoms, t.stop, s, p);
      NoMatchNowhere(t, s, p);
      assert AtomsMatch(t.atoms, s, p, g.start) && Search(t, s).value == s[g.start..g.end];
    }
  }

  /** The literal words of a template's atoms, in order. */
  function Lits(atoms: seq<Atom>): seq<string>
  {
    if atoms == [] then []
    else match atoms[0]
      case Lit(w) => [w] + Lits(atoms[1..])
      case _ => Lits(atoms[1..])
  }

  /** `Lits` one atom at a time. */
  lemma LitsCons(x: Atom, rest: seq<Atom>)
    ensures Lits([x] + rest) == (if x.Lit? then [x.w] else []) + Lits(rest)
  {
    assert ([x] + rest)[1..] == rest;
  }

  /** The words occur one after the other, without overlapping, inside `s[p..j]`. */
  ghost predicate InOrder(ws: seq<string>, s: string, p: nat, j: nat)
    decreases |ws|
  {
    ws == [] || exists a: nat | p <= a && a + |ws[0]| <= j :: OccursAt(s, ws[0], a) && InOrder(ws[1..], s, a + |ws[0]|, j)
  }

  /** Starting earlier keeps the words in order. */
  lemma InOrderFrom(ws: seq<string>, s: string, p: nat, p': nat, j: nat)
    requires p <= p' && InOrder(ws, s, p', j)
    ensures InOrder(ws, s, p, j)
  {
    if ws != [] {
      var a: nat :| p' <= a && a + |ws[0]| <= j && OccursAt(s, ws[0], a) && InOrder(ws[1..], s, a + |ws[0]|, j);
    }
  }

  /** A match of the atoms contains their literal words in order. */
  lemma {:induction false} AtomsMatchLits(atoms: seq<Atom>, s: string, p: nat, j: nat)
    requires AtomsMatch(atoms, s, p, j)
    ensures InOrder(Lits(atoms), s, p, j)
  {
    if atoms != [] {
      var rest := atoms[1..];
      match atoms[0]
      case Lit(w) =>
        AtomsMatchLits(rest, s, p + |w|, j);
        var ws := Lits(atoms);
        assert ws == [w] + Lits(rest) && ws[1..] == Lits(rest);
        assert p + |ws[0]| <= j && OccursAt(s, ws[0], p) && InOrder(ws[1..], s, p + |ws[0]|, j);
      case One(cs) =>
        AtomsMatchLits(rest, s, p + 1, j);
        InOrderFrom(Lits(rest), s, p, p + 1, j);
      case Opt(cs) =>
        if p < |s| && s[p] in cs && AtomsMatch(rest, s, p + 1, j) {
          AtomsMatchLits(rest, s, p + 1, j);
          InOrderFrom(Lits(rest), s, p, p + 1, j);
        } else {
          AtomsMatchLits(rest, s, p, j);
        }
      case Star(cs) =>
        var q :| p <= q <= p + RunIn(s, p, cs) && AtomsMatch(rest, s, q, j);
        AtomsMatchLits(rest, s, q, j);
        InOrderFrom(Lits(rest), s, p, q, j);
    }
  }

  /**
   * A successful search captures the run outside `stop` that follows a match,
   * at the leftmost position where the template matches, of the template's
   * literal words in order.
   */
  lemma SearchLits(t: Template, s: string)
    ensures Search(t, s).Some? ==> exists p: nat, j: nat | p <= j <= |s| ::
      && NowhereBefore(t, s, p)
      && InOrder(Lits(t.atoms), s, p, j)
      && Search(t, s).value == s[j..j + RunOut(s, j, t.stop)]
  {
    SearchFound(t, s);
    if Search(t, s).Some? {
      var p: nat, j: nat :| p <= j <= |s| && NowhereBefore(t, s, p) && AtomsMatch(t.atoms, s, p, j)
        && Search(t, s).value == s[j..j + RunOut(s, j, t.stop)];
      AtomsMatchLits(t.atoms, s, p, j);
    }
  }
}
