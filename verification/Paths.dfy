/**
 Containment of directories: the string-boundary test of paths.rs and the component test of
 library_location.py, on the spellings they compare. `fold` is the platform's case folding (the identity
 outside Windows), one character at a time; spellings are absolute and hold no dot components, which is
 what resolving them beforehand leaves.
 */
module Paths {
  const SEP := '/'

  type Fold = char -> char

  /** Case folding neither makes nor removes a separator. */
  ghost predicate KeepsSeparators(fold: Fold) {
    forall c :: fold(c) == SEP <==> c == SEP
  }

  function Mapped(fold: Fold, s: string): string {
    seq(|s|, i requires 0 <= i < |s| => fold(s[i]))
  }

  function Slashed(s: string): string {
    seq(|s|, i requires 0 <= i < |s| => if s[i] == '\\' then SEP else s[i])
  }

  function TrimEnd(s: string): (r: string)
    ensures r <= s && (r != [] ==> r[|r| - 1] != SEP)
    ensures forall i :: |r| <= i < |s| ==> s[i] == SEP
  {
    if s == [] || s[|s| - 1] != SEP then s else TrimEnd(s[..|s| - 1])
  }

  /** `normalized`: forward slashes, no trailing separator, except that a lone character stays. */
  function Normalized(path: string): string {
    var text := Slashed(path);
    if |text| > 1 then TrimEnd(text) else text
  }

  function Spelling(fold: Fold, path: string): string {
    Mapped(fold, Normalized(path))
  }

  predicate Boundary(prefix: string, whole: string) {
    whole == prefix || prefix + [SEP] <= whole
  }

  /** `overlaps` of paths.rs. */
  predicate Overlaps(fold: Fold, left: string, right: string) {
    || Boundary(Spelling(fold, left), Spelling(fold, right))
    || Boundary(Spelling(fold, right), Spelling(fold, left))
  }

  // ---- Components ----

  function FirstSlash(s: string): (n: nat)
    ensures n <= |s| && SEP !in s[..n] && (n < |s| ==> s[n] == SEP)
  {
    if s == [] || s[0] == SEP then 0
    else
      assert s[..FirstSlash(s[1..]) + 1] == [s[0]] + s[1..][..FirstSlash(s[1..])];
      FirstSlash(s[1..]) + 1
  }

  /** The whole components: everything between separators that is not empty. */
  function Parts(s: string): seq<string> {
    var n := FirstSlash(s);
    var head := if n == 0 then [] else [s[..n]];
    if n < |s| then head + Parts(s[n + 1..]) else head
  }

  /** `_comparable`, before the verbatim prefix that only Windows spellings carry. */
  function Components(fold: Fold, path: string): seq<string> {
    Parts(Mapped(fold, Slashed(path)))
  }

  /** `_comparable` on Windows: a verbatim prefix is dropped first. */
  function WindowsComponents(fold: Fold, path: string): seq<string> {
    var text := Mapped(fold, Slashed(path));
    if "//?/" <= text then Parts(text[4..]) else Parts(text)
  }

  /** `_overlaps` of library_location.py on two component tuples. */
  predicate ComponentsOverlap(first: seq<string>, second: seq<string>) {
    if first == [] || second == [] then false
    else
      var shorter := if |first| <= |second| then first else second;
      var longer := if |first| <= |second| then second else first;
      longer[..|shorter|] == shorter
  }

  lemma {:induction false} FirstSlashAt(x: string, y: string)
    requires SEP !in x
    ensures FirstSlash(x + [SEP] + y) == |x| && FirstSlash(x) == |x|
  {
    if x == [] {
      assert x + [SEP] + y == [SEP] + y;
    } else {
      assert (x + [SEP] + y)[1..] == x[1..] + [SEP] + y;
      FirstSlashAt(x[1..], y);
    }
  }

  lemma FirstSlashIn(x: string, y: string)
    requires FirstSlash(x) < |x|
    ensures FirstSlash(x + y) == FirstSlash(x)
  {
    var n := FirstSlash(x);
    assert x + y == x[..n] + [SEP] + (x[n + 1..] + y);
    FirstSlashAt(x[..n], x[n + 1..] + y);
  }

  /** A separator separates. */
  lemma {:induction false} PartsConcat(x: string, y: string)
    ensures Parts(x + [SEP] + y) == Parts(x) + Parts(y)
    decreases |x|
  {
    var n := FirstSlash(x);
    var all := x + [SEP] + y;
    if n < |x| {
      FirstSlashIn(x, [SEP] + y);
      assert all == x + ([SEP] + y);
      assert all[..n] == x[..n];
      assert all[n + 1..] == x[n + 1..] + [SEP] + y;
      PartsConcat(x[n + 1..], y);
    } else {
      assert x[..n] == x;
      FirstSlashAt(x, y);
      assert all[..n] == x && all[n + 1..] == y;
    }
  }

  /** Either separator separates, wherever it stands. */
  lemma SeparatorsSeparate(fold: Fold, a: string, b: string)
    requires KeepsSeparators(fold)
    ensures Components(fold, a + "\\" + b) == Components(fold, a) + Components(fold, b)
    ensures Components(fold, a + "/" + b) == Components(fold, a) + Components(fold, b)
  {
    var x, y := Mapped(fold, Slashed(a)), Mapped(fold, Slashed(b));
    assert fold(SEP) == SEP;
    assert Mapped(fold, Slashed(a + "\\" + b)) == x + [SEP] + y;
    assert Mapped(fold, Slashed(a + "/" + b)) == x + [SEP] + y;
    PartsConcat(x, y);
  }

  /** A name without a separator is one component, folded; an empty one is none. */
  lemma NameIsOneComponent(fold: Fold, name: string)
    requires KeepsSeparators(fold) && '/' !in name && '\\' !in name
    ensures Components(fold, name) == if name == "" then [] else [Mapped(fold, name)]
  {
    assert Slashed(name) == name;
    var text := Mapped(fold, name);
    assert forall i :: 0 <= i < |text| ==> text[i] != SEP;
    FirstSlashAt(text, "");
    assert text[..|text|] == text;
  }

  // ---- The boundary test in terms of components ----

  function Joined(ps: seq<string>): string {
    if ps == [] then [] else if |ps| == 1 then ps[0] else ps[0] + [SEP] + Joined(ps[1..])
  }

  lemma {:induction false} JoinedConcat(a: seq<string>, b: seq<string>)
    requires a != []
    ensures Joined(a + b) == Joined(a) + (if b == [] then [] else [SEP] + Joined(b))
  {
    if |a| == 1 {
      assert a + b == [a[0]] + b;
      assert (a + b)[1..] == b;
    } else {
      assert (a + b)[1..] == a[1..] + b;
      JoinedConcat(a[1..], b);
    }
  }

  /** No empty component between two separators. */
  predicate NoGap(t: string) {
    forall i :: 0 <= i < |t| - 1 ==> t[i] != SEP || t[i + 1] != SEP
  }

  predicate Rooted(t: string) {
    t != [] && t[0] == SEP
  }

  /** A spelling whose components are all visible: it could be written back from them. */
  predicate Clean(t: string) {
    t != [] && NoGap(t) && (t == [SEP] || t[|t| - 1] != SEP)
  }

  lemma {:induction false} RelativeJoins(t: string)
    requires Clean(t) && !Rooted(t)
    ensures Parts(t) != [] && t == Joined(Parts(t))
    decreases |t|
  {
    var n := FirstSlash(t);
    if n < |t| {
      var rest := t[n + 1..];
      assert rest != [] && rest[0] == t[n + 1] && rest[|rest| - 1] == t[|t| - 1];
      forall i | 0 <= i < |rest| - 1
        ensures rest[i] != SEP || rest[i + 1] != SEP
      {
        assert rest[i] == t[n + 1 + i] && rest[i + 1] == t[n + 1 + i + 1];
      }
      RelativeJoins(rest);
      assert Parts(t) == [t[..n]] + Parts(rest);
      assert Parts(t)[1..] == Parts(rest);
      assert t == t[..n] + [SEP] + rest;
    } else {
      assert t[..n] == t;
    }
  }

  function Lead(t: string): string {
    if Rooted(t) then [SEP] else []
  }

  lemma CleanJoins(t: string)
    requires Clean(t)
    ensures Parts(t) == [] <==> t == [SEP]
    ensures t != [SEP] ==> t == Lead(t) + Joined(Parts(t))
  {
    if !Rooted(t) {
      RelativeJoins(t);
    } else if |t| > 1 {
      var rest := t[1..];
      forall i | 0 <= i < |rest| - 1
        ensures rest[i] != SEP || rest[i + 1] != SEP
      {
        assert rest[i] == t[i + 1] && rest[i + 1] == t[i + 2];
      }
      assert t[0] == SEP && t[1] != SEP;
      RelativeJoins(rest);
      assert Parts(t) == Parts(rest);
      assert t == [SEP] + rest;
    } else {
      assert t == [SEP];
    }
  }

  /** Whatever the spelling, a string boundary is a component boundary. */
  lemma BoundaryIsPrefix(x: string, y: string)
    requires Boundary(x, y)
    ensures Parts(x) <= Parts(y)
  {
    if x != y {
      var rest := y[|x| + 1..];
      assert y == x + [SEP] + rest;
      PartsConcat(x, rest);
    }
  }

  lemma Continues(lead: string, a: string, c: string)
    ensures Boundary(lead + a, lead + (a + ([SEP] + c)))
    ensures Boundary(lead + a, lead + (a + []))
  {
    assert lead + (a + ([SEP] + c)) == (lead + a + [SEP]) + c;
    assert lead + (a + []) == lead + a;
  }

  /** And back, for clean spellings of the same kind and a prefix that is not the bare root. */
  lemma PrefixIsBoundary(x: string, y: string)
    requires Clean(x) && Clean(y) && (Rooted(x) <==> Rooted(y))
    requires x != [SEP] && Parts(x) <= Parts(y)
    ensures Boundary(x, y)
  {
    CleanJoins(x);
    CleanJoins(y);
    hide Parts, Joined, NoGap;
    var a, c := Parts(x), Parts(y)[|Parts(x)|..];
    assert Parts(y) == a + c;
    JoinedConcat(a, c);
    Continues(Lead(x), Joined(a), Joined(c));
    if c == [] {
      assert a + c == a;
    }
  }

  /** The bare root has a boundary with nothing but itself. */
  lemma RootBoundary(y: string)
    requires Clean(y)
    ensures Boundary([SEP], y) <==> y == [SEP]
    ensures Boundary(y, [SEP]) <==> y == [SEP]
  {
    assert |y| > 1 ==> y[0] != SEP || y[1] != SEP;
  }

  lemma {:induction false} TrimMaps(fold: Fold, s: string)
    requires KeepsSeparators(fold)
    ensures Mapped(fold, TrimEnd(s)) == TrimEnd(Mapped(fold, s))
    decreases |s|
  {
    if s != [] && s[|s| - 1] == SEP {
      assert Mapped(fold, s)[..|s| - 1] == Mapped(fold, s[..|s| - 1]);
      TrimMaps(fold, s[..|s| - 1]);
    }
  }

  lemma {:induction false} TrimParts(s: string)
    ensures Parts(TrimEnd(s)) == Parts(s)
    decreases |s|
  {
    if s != [] && s[|s| - 1] == SEP {
      var front := s[..|s| - 1];
      TrimParts(front);
      assert s == front + [SEP] + [];
      PartsConcat(front, []);
    }
  }

  lemma SpellingHasComponents(fold: Fold, path: string)
    requires KeepsSeparators(fold)
    ensures Parts(Spelling(fold, path)) == Components(fold, path)
  {
    TrimMaps(fold, Slashed(path));
    TrimParts(Mapped(fold, Slashed(path)));
  }

  /** For every two paths: what the boundary test calls nested is nested by whole components. */
  lemma OverlapIsNesting(fold: Fold, left: string, right: string)
    requires KeepsSeparators(fold) && Overlaps(fold, left, right)
    ensures Components(fold, left) <= Components(fold, right) || Components(fold, right) <= Components(fold, left)
  {
    SpellingHasComponents(fold, left);
    SpellingHasComponents(fold, right);
    if Boundary(Spelling(fold, left), Spelling(fold, right)) {
      BoundaryIsPrefix(Spelling(fold, left), Spelling(fold, right));
    } else {
      BoundaryIsPrefix(Spelling(fold, right), Spelling(fold, left));
    }
  }

  ghost predicate Comparable(fold: Fold, left: string, right: string) {
    && KeepsSeparators(fold) && Clean(Spelling(fold, left)) && Clean(Spelling(fold, right))
    && (Rooted(Spelling(fold, left)) <==> Rooted(Spelling(fold, right)))
  }

  lemma OverlapIffNesting(fold: Fold, left: string, right: string)
    requires Comparable(fold, left, right)
    requires Components(fold, left) != [] && Components(fold, right) != []
    ensures Overlaps(fold, left, right) <==>
            Components(fold, left) <= Components(fold, right) || Components(fold, right) <= Components(fold, left)
  {
    var x, y := Spelling(fold, left), Spelling(fold, right);
    SpellingHasComponents(fold, left);
    SpellingHasComponents(fold, right);
    CleanJoins(x);
    CleanJoins(y);
    if Overlaps(fold, left, right) {
      OverlapIsNesting(fold, left, right);
    } else if Components(fold, left) <= Components(fold, right) {
      PrefixIsBoundary(x, y);
    } else if Components(fold, right) <= Components(fold, left) {
      PrefixIsBoundary(y, x);
    }
  }

  /** The two languages agree on every pair of comparable paths, except that only one of them lets the root meet itself. */
  lemma LanguagesAgreeIff(fold: Fold, left: string, right: string)
    requires Comparable(fold, left, right)
    ensures (Overlaps(fold, left, right) <==> ComponentsOverlap(Components(fold, left), Components(fold, right)))
            <==> !(Components(fold, left) == [] && Components(fold, right) == [])
  {
    SpellingHasComponents(fold, left);
    SpellingHasComponents(fold, right);
    CleanJoins(Spelling(fold, left));
    CleanJoins(Spelling(fold, right));
    if Components(fold, left) == [] {
      RootBoundary(Spelling(fold, right));
    } else if Components(fold, right) == [] {
      RootBoundary(Spelling(fold, left));
    } else {
      OverlapIffNesting(fold, left, right);
    }
  }

  /** Windows: only library_location.py drops a verbatim prefix, so only it sees through one. */
  lemma VerbatimPrefixIsMissed(fold: Fold, path: string)
    requires KeepsSeparators(fold) && fold('?') == '?'
    requires |path| > 1 && !Rooted(Slashed(path)) && path[|path| - 1] != SEP && path[|path| - 1] != '\\'
    ensures !Overlaps(fold, "//?/" + path, path)
    ensures WindowsComponents(fold, "//?/" + path) == WindowsComponents(fold, path)
    ensures ComponentsOverlap(WindowsComponents(fold, "//?/" + path), WindowsComponents(fold, path))
            <==> WindowsComponents(fold, path) != []
  {
    assert Mapped(fold, Slashed("//?/" + path)) == "//?/" + Mapped(fold, Slashed(path));
    assert Mapped(fold, Slashed(path))[0] != SEP;
    var x, y := Spelling(fold, "//?/" + path), Spelling(fold, path);
    assert Slashed("//?/" + path) == "//?/" + Slashed(path);
    assert Normalized(path) == Slashed(path) && Normalized("//?/" + path) == "//?/" + Slashed(path);
    assert x[0] == SEP && y[0] != SEP;
  }

  // ---- Windows ----

  /** How a Windows spelling begins: a drive, a root, a share, or a verbatim prefix. */
  datatype Kind = Drive | Root | Share | Verbatim

  const VERBATIM := "//?/"

  function KindOf(text: string): Kind {
    if VERBATIM <= text then Verbatim
    else if [SEP, SEP] <= text then Share
    else if [SEP] <= text then Root
    else Drive
  }

  function Opening(kind: Kind): string {
    match kind
    case Drive => []
    case Root => [SEP]
    case Share => [SEP, SEP]
    case Verbatim => VERBATIM
  }

  function Body(text: string): (r: string)
    ensures text == Opening(KindOf(text)) + r
  {
    text[|Opening(KindOf(text))|..]
  }

  function Folded(fold: Fold, path: string): string {
    Mapped(fold, Slashed(path))
  }

  /**
   A spelling of some directory: behind its opening it has visible components. The text of a verbatim
   prefix without its last separator is no share.
  */
  predicate Names(text: string) {
    Clean(Body(text)) && !Rooted(Body(text)) && text != "//?"
  }

  ghost predicate WindowsPath(fold: Fold, path: string) {
    KeepsSeparators(fold) && Names(TrimEnd(Folded(fold, path)))
  }

  lemma {:induction false} TrimBehind(a: string, b: string)
    requires |TrimEnd(a + b)| >= |a|
    ensures TrimEnd(a + b) == a + TrimEnd(b)
    decreases |b|
  {
    if b == [] {
      assert a + b == a;
    } else if b[|b| - 1] == SEP {
      assert (a + b)[..|a + b| - 1] == a + b[..|b| - 1];
      TrimBehind(a, b[..|b| - 1]);
    } else {
      assert (a + b)[|a + b| - 1] == b[|b| - 1];
    }
  }

  /** A text that names a directory is the spelling the boundary test compares. */
  lemma SpellingIsTrimmed(fold: Fold, path: string)
    requires WindowsPath(fold, path)
    ensures Spelling(fold, path) == TrimEnd(Folded(fold, path))
  {
    TrimMaps(fold, Slashed(path));
    assert |Folded(fold, path)| == |Slashed(path)|;
  }

  lemma OpeningHasNoParts(kind: Kind, body: string)
    ensures !kind.Verbatim? ==> Parts(Opening(kind) + body) == Parts(body)
  {
    PartsConcat([], body);
    assert [] + [SEP] + body == [SEP] + body;
    PartsConcat([], [SEP] + body);
    assert [] + [SEP] + ([SEP] + body) == [SEP, SEP] + body;
    assert [] + body == body;
  }

  /** What the component test compares is what stands behind the opening. */
  lemma ComponentsAreBody(fold: Fold, path: string)
    requires WindowsPath(fold, path)
    ensures WindowsComponents(fold, path) == Parts(Body(TrimEnd(Folded(fold, path))))
  {
    var text := Folded(fold, path);
    var trimmed := TrimEnd(text);
    if VERBATIM <= text {
      assert |trimmed| >= 3 by {
        assert text[2] == '?';
      }
      assert |trimmed| == 3 ==> trimmed == "//?";
      assert text == VERBATIM + text[4..];
      TrimBehind(VERBATIM, text[4..]);
      TrimParts(text[4..]);
      assert trimmed[4..] == TrimEnd(text[4..]);
    } else {
      assert !(VERBATIM <= trimmed);
      TrimParts(text);
      OpeningHasNoParts(KindOf(trimmed), Body(trimmed));
    }
  }

  lemma BoundaryBehind(a: string, b: string, c: string)
    ensures Boundary(a + b, a + c) <==> Boundary(b, c)
  {
    var x, y := a + b, a + c;
    assert x[|a|..] == b && y[|a|..] == c && (x + [SEP])[|a|..] == b + [SEP];
    if Boundary(x, y) && x != y {
      assert b + [SEP] == y[|a|..][..|b| + 1];
    }
    if Boundary(b, c) && b != c {
      assert c == (b + [SEP]) + c[|b| + 1..];
      assert y == (x + [SEP]) + c[|b| + 1..];
    }
  }

  /** Openings of different kinds keep a boundary from ever being found. */
  lemma BoundaryNeedsOneKind(x: string, y: string)
    requires Names(x) && Names(y)
    ensures Boundary(x, y) <==> KindOf(x) == KindOf(y) && Boundary(Body(x), Body(y))
  {
    if Boundary(x, y) {
      KindIsBeginning(x, y);
    }
    hide Boundary, Names;
    if KindOf(x) == KindOf(y) {
      BoundaryBehind(Opening(KindOf(x)), Body(x), Body(y));
    }
  }

  predicate Letters(t: string) {
    && |t| > 0
    && (t[0] == SEP ==> |t| > 1 && (t[1] == SEP ==> |t| > 2 && (t[2] == '?' ==> |t| > 3)))
  }

  function KindByLetters(t: string): Kind
    requires Letters(t)
  {
    if t[0] != SEP then Drive
    else if t[1] != SEP then Root
    else if t[2] == '?' && t[3] == SEP then Verbatim
    else Share
  }

  lemma KindHasLetters(t: string)
    requires Names(t)
    ensures Letters(t) && KindOf(t) == KindByLetters(t)
  {
    hide NoGap;
    assert t == Opening(KindOf(t)) + Body(t) && Body(t)[0] != SEP;
    assert |t| == 3 && t[0] == SEP && t[1] == SEP && t[2] == '?' ==> t == "//?";
    assert VERBATIM <= t <==> |t| > 3 && t[0] == SEP && t[1] == SEP && t[2] == '?' && t[3] == SEP;
  }

  lemma KindIsBeginning(x: string, y: string)
    requires Names(x) && Names(y) && Boundary(x, y)
    ensures KindOf(x) == KindOf(y)
  {
    KindHasLetters(x);
    KindHasLetters(y);
    hide Names, KindOf;
    assert forall i :: 0 <= i < |x| ==> y[i] == x[i];
    assert |x| < |y| ==> y[|x|] == SEP;
  }

  /**
   On Windows the two tests agree on two directories exactly if their spellings open alike or their
   components are apart anyway. Only the component test drops a verbatim prefix; neither knows a share
   behind one.
  */
  lemma WindowsAgreeIff(fold: Fold, left: string, right: string)
    requires WindowsPath(fold, left) && WindowsPath(fold, right)
    ensures (Overlaps(fold, left, right) <==> ComponentsOverlap(WindowsComponents(fold, left), WindowsComponents(fold, right)))
            <==> (KindOf(TrimEnd(Folded(fold, left))) == KindOf(TrimEnd(Folded(fold, right)))
                  || !ComponentsOverlap(WindowsComponents(fold, left), WindowsComponents(fold, right)))
  {
    var x, y := TrimEnd(Folded(fold, left)), TrimEnd(Folded(fold, right));
    SpellingIsTrimmed(fold, left);
    SpellingIsTrimmed(fold, right);
    ComponentsAreBody(fold, left);
    ComponentsAreBody(fold, right);
    BoundaryNeedsOneKind(x, y);
    BoundaryNeedsOneKind(y, x);
    BodiesNest(Body(x), Body(y));
  }

  lemma BodiesNest(a: string, b: string)
    requires Clean(a) && Clean(b) && !Rooted(a) && !Rooted(b)
    ensures Boundary(a, b) || Boundary(b, a) <==> ComponentsOverlap(Parts(a), Parts(b))
  {
    CleanJoins(a);
    CleanJoins(b);
    if Boundary(a, b) {
      BoundaryIsPrefix(a, b);
    }
    if Boundary(b, a) {
      BoundaryIsPrefix(b, a);
    }
    if Parts(a) <= Parts(b) {
      PrefixIsBoundary(a, b);
    }
    if Parts(b) <= Parts(a) {
      PrefixIsBoundary(b, a);
    }
  }

  /** A share and the same share behind a verbatim prefix are one directory that neither test recognises. */
  lemma VerbatimShareIsMissed(fold: Fold, share: string, verbatim: string)
    requires WindowsPath(fold, share) && WindowsPath(fold, verbatim)
    requires KindOf(TrimEnd(Folded(fold, share))).Share? && KindOf(TrimEnd(Folded(fold, verbatim))).Verbatim?
    requires WindowsComponents(fold, verbatim) == ["unc"] + WindowsComponents(fold, share)
    requires WindowsComponents(fold, share) != [] && WindowsComponents(fold, share)[0] != "unc"
    ensures !Overlaps(fold, share, verbatim)
    ensures !ComponentsOverlap(WindowsComponents(fold, share), WindowsComponents(fold, verbatim))
  {
    var a, b := WindowsComponents(fold, share), WindowsComponents(fold, verbatim);
    assert |a| < |b| && b[..|a|][0] == b[0] == "unc" != a[0];
    WindowsAgreeIff(fold, share, verbatim);
  }

  // ---- Disjoint roots ----

  predicate Disjoint(fold: Fold, roots: seq<string>) {
    forall i, j :: 0 <= i < j < |roots| ==> !Overlaps(fold, roots[i], roots[j])
  }

  /** `check_disjoint`: an early return from two nested loops. */
  method CheckDisjoint(fold: Fold, roots: seq<string>) returns (ok: bool)
    ensures ok <==> Disjoint(fold, roots)
  {
    hide Overlaps;
    var i := 0;
    while i < |roots|
      invariant 0 <= i <= |roots|
      invariant forall a, b :: 0 <= a < b < |roots| && a < i ==> !Overlaps(fold, roots[a], roots[b])
    {
      var j := i + 1;
      while j < |roots|
        invariant i < j <= |roots|
        invariant forall b :: i < b < j ==> !Overlaps(fold, roots[i], roots[b])
      {
        if Overlaps(fold, roots[i], roots[j]) {
          return false;
        }
        j := j + 1;
      }
      i := i + 1;
    }
    return true;
  }

  /** A path lies under a root whose components it continues. */
  predicate UnderBoth(path: seq<string>, a: seq<string>, b: seq<string>) {
    a <= path && b <= path
  }

  lemma SharedIffNested(a: seq<string>, b: seq<string>)
    ensures (exists path :: UnderBoth(path, a, b)) <==> a <= b || b <= a
  {
    if a <= b {
      assert UnderBoth(b, a, b);
    } else if b <= a {
      assert UnderBoth(a, a, b);
    }
    if path :| UnderBoth(path, a, b) {
      assert |a| <= |b| ==> b[..|a|] == path[..|a|];
      assert |b| <= |a| ==> a[..|b|] == path[..|b|];
    }
  }

  ghost predicate AllComparable(fold: Fold, roots: seq<string>) {
    forall i, j :: 0 <= i < j < |roots| ==> Comparable(fold, roots[i], roots[j])
  }

  predicate Bare(fold: Fold, path: string) {
    Components(fold, path) == []
  }

  ghost predicate NothingShared(fold: Fold, roots: seq<string>) {
    forall i, j, path :: 0 <= i < j < |roots| ==>
      !UnderBoth(path, Components(fold, roots[i]), Components(fold, roots[j]))
  }

  /** On two roots the boundary test tells whether some path lies under both exactly if both or neither is a bare root. */
  lemma PairIsJudgedIff(fold: Fold, a: string, b: string)
    requires Comparable(fold, a, b)
    ensures (Overlaps(fold, a, b) <==> exists path :: UnderBoth(path, Components(fold, a), Components(fold, b)))
            <==> (Bare(fold, a) <==> Bare(fold, b))
  {
    SharedIffNested(Components(fold, a), Components(fold, b));
    LanguagesAgreeIff(fold, a, b);
    if Bare(fold, a) && Bare(fold, b) {
      SpellingHasComponents(fold, a);
      SpellingHasComponents(fold, b);
      CleanJoins(Spelling(fold, a));
      CleanJoins(Spelling(fold, b));
    } else if !Bare(fold, a) && !Bare(fold, b) {
      OverlapIffNesting(fold, a, b);
    }
  }

  lemma SharedPair(fold: Fold, a: string, b: string)
    requires Comparable(fold, a, b)
    ensures (exists path :: UnderBoth(path, Components(fold, a), Components(fold, b)))
            <==> Overlaps(fold, a, b) || Bare(fold, a) || Bare(fold, b)
  {
    PairIsJudgedIff(fold, a, b);
    SharedIffNested(Components(fold, a), Components(fold, b));
  }

  /**
   For every list of roots: no path lies under two of them exactly if the check passes and, unless there is
   but one root, none of them is bare. So what passes is apart exactly without a bare root beside another.
  */
  lemma NothingSharedIff(fold: Fold, roots: seq<string>)
    requires AllComparable(fold, roots)
    ensures NothingShared(fold, roots) <==>
            Disjoint(fold, roots) && (|roots| <= 1 || forall i :: 0 <= i < |roots| ==> !Bare(fold, roots[i]))
  {
    forall i, j | 0 <= i < j < |roots|
      ensures (exists path :: UnderBoth(path, Components(fold, roots[i]), Components(fold, roots[j])))
              <==> Overlaps(fold, roots[i], roots[j]) || Bare(fold, roots[i]) || Bare(fold, roots[j])
    {
      assert Comparable(fold, roots[i], roots[j]);
      SharedPair(fold, roots[i], roots[j]);
    }
    hide Overlaps, UnderBoth, Bare;
    if |roots| > 1 && NothingShared(fold, roots) {
      forall k | 0 <= k < |roots|
        ensures !Bare(fold, roots[k])
      {
        var i, j := if k == 0 then 0 else k - 1, if k == 0 then 1 else k;
        assert !exists path :: UnderBoth(path, Components(fold, roots[i]), Components(fold, roots[j]));
      }
    }
  }

  /** Without a bare root the check passes exactly if no path lies under two of the roots. */
  lemma DisjointIffNothingShared(fold: Fold, roots: seq<string>)
    requires AllComparable(fold, roots)
    requires forall i :: 0 <= i < |roots| ==> !Bare(fold, roots[i])
    ensures Disjoint(fold, roots) <==> NothingShared(fold, roots)
  {
    NothingSharedIff(fold, roots);
  }

  /** A bare root beside another root, in either order, passes the check, and the other's paths lie under both. */
  lemma BareRootEscapes(fold: Fold, root: string, other: string)
    requires Comparable(fold, root, other)
    requires Bare(fold, root) && !Bare(fold, other)
    ensures Disjoint(fold, [root, other]) && Disjoint(fold, [other, root])
    ensures UnderBoth(Components(fold, other), Components(fold, root), Components(fold, other))
  {
    SpellingHasComponents(fold, root);
    SpellingHasComponents(fold, other);
    CleanJoins(Spelling(fold, root));
    CleanJoins(Spelling(fold, other));
    RootBoundary(Spelling(fold, other));
  }
}
