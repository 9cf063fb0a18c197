/**
 * The key and name string helpers shared by the client and the server:
 * `camelCaseToSnakeCase`, `objectToEnvValues` and `createStackName`.
 *
 * Case mapping is ASCII only, like the regular expressions the helpers use.
 */
module Utilities {
  import opened Wrappers

  // ---------------------------------------------------------------------
  // ASCII characters and case mapping
  // ---------------------------------------------------------------------

  predicate IsUpper(c: char) { 'A' <= c <= 'Z' }

  predicate IsLowerLetter(c: char) { 'a' <= c <= 'z' }

  function ToLowerChar(c: char): char {
    if IsUpper(c) then (c as int + 32) as char else c
  }

  function ToUpperChar(c: char): char {
    if IsLowerLetter(c) then (c as int - 32) as char else c
  }

  /** `String.prototype.toLowerCase` restricted to ASCII. */
  function Lower(s: string): string {
    if s == [] then [] else [ToLowerChar(s[0])] + Lower(s[1..])
  }

  /** `String.prototype.toUpperCase` restricted to ASCII. */
  function Upper(s: string): string {
    if s == [] then [] else [ToUpperChar(s[0])] + Upper(s[1..])
  }

  lemma {:induction false} LowerHasNoUpper(s: string)
    ensures |Lower(s)| == |s|
    ensures forall i :: 0 <= i < |s| ==> Lower(s)[i] == ToLowerChar(s[i])
    ensures forall i :: 0 <= i < |s| ==> !IsUpper(Lower(s)[i])
  {
    if s != [] {
      LowerHasNoUpper(s[1..]);
    }
  }

  lemma {:induction false} UpperHasNoLower(s: string)
    ensures |Upper(s)| == |s|
    ensures forall i :: 0 <= i < |s| ==> !IsLowerLetter(Upper(s)[i])
  {
    if s != [] {
      UpperHasNoLower(s[1..]);
    }
  }

  /** Upper-casing after lower-casing is the same as upper-casing alone. */
  lemma {:induction false} UpperOfLower(s: string)
    ensures Upper(Lower(s)) == Upper(s)
  {
    if s != [] {
      UpperOfLower(s[1..]);
    }
  }

  lemma {:induction false} UpperAppend(a: string, b: string)
    ensures Upper(a + b) == Upper(a) + Upper(b)
  {
    if a == [] {
      assert a + b == b;
    } else {
      assert (a + b)[0] == a[0];
      assert (a + b)[1..] == a[1..] + b;
      UpperAppend(a[1..], b);
      assert [ToUpperChar(a[0])] + Upper(a[1..]) + Upper(b) == Upper(a) + Upper(b);
    }
  }

  // ---------------------------------------------------------------------
  // camelCaseToSnakeCase: str.split(/\.?(?=[A-Z])/).join('_').toLowerCase()
  // ---------------------------------------------------------------------

  /**
   * Where a match of `/\.?(?=[A-Z])/` that starts at position `q` ends.
   * The optional dot is tried first; without it, the look-ahead needs an
   * upper-case letter at `q` itself.
   */
  function MatchEnd(s: string, q: nat): (e: Option<nat>)
    requires q < |s|
    ensures e.Some? ==> q <= e.value < |s|
    // A split point is always just before a capital, and every capital gives one.
    ensures e.Some? ==> IsUpper(s[e.value]) && (e.value == q || s[q] == '.')
    ensures IsUpper(s[q]) ==> e.Some?
  {
    if s[q] == '.' && q + 1 < |s| && IsUpper(s[q + 1]) then Some(q + 1)
    else if IsUpper(s[q]) then Some(q)
    else None
  }

  /**
   * The splitting loop of `String.prototype.split` with a regular expression:
   * `p` is where the current piece starts, `q` the position tried next. A
   * match that ends where the current piece starts (an empty match right
   * after a split, or at index 0) does not split.
   */
  function SplitFrom(s: string, p: nat, q: nat): (parts: seq<string>)
    requires p <= q <= |s|
    ensures |parts| >= 1
    decreases |s| - q, q - p
  {
    if q == |s| then [s[p..]]
    else match MatchEnd(s, q)
      case None => SplitFrom(s, p, q + 1)
      case Some(e) =>
        if e == p then SplitFrom(s, p, q + 1)
        else [s[p..q]] + SplitFrom(s, e, e)
  }

  function Split(s: string): seq<string> {
    SplitFrom(s, 0, 0)
  }

  /** `Array.prototype.join`. */
  function Join(parts: seq<string>, sep: string): string {
    if |parts| == 0 then ""
    else if |parts| == 1 then parts[0]
    else parts[0] + sep + Join(parts[1..], sep)
  }

  function CamelCaseToSnakeCase(str: string): (r: string)
    ensures forall i :: 0 <= i < |r| ==> !IsUpper(r[i])
  {
    LowerHasNoUpper(Join(Split(str), "_"));
    Lower(Join(Split(str), "_"))
  }

  /** The environment-variable name of a configuration key. */
  function EnvKey(key: string): (name: string)
    ensures forall i :: 0 <= i < |name| ==> !IsLowerLetter(name[i])
  {
    UpperHasNoLower(CamelCaseToSnakeCase(key));
    Upper(CamelCaseToSnakeCase(key))
  }

  /**
   * Reference definition of the joined pieces, one source character at a
   * time: a dot just before a capital becomes `_`; a capital gets one `_`
   * before it unless it is the first character or follows such a dot;
   * everything else is copied.
   */
  function Piece(s: string, i: nat): string
    requires i < |s|
  {
    if s[i] == '.' && i + 1 < |s| && IsUpper(s[i + 1]) then "_"
    else if IsUpper(s[i]) && i > 0 && s[i - 1] != '.' then "_" + [s[i]]
    else [s[i]]
  }

  function SnakeFrom(s: string, i: nat): string
    requires i <= |s|
    decreases |s| - i
  {
    if i == |s| then "" else Piece(s, i) + SnakeFrom(s, i + 1)
  }

  /** The states the splitting loop reaches from (0, 0). */
  ghost predicate SplitState(s: string, p: nat, q: nat) {
    && p <= q <= |s|
    && (p == q ==> q == 0 || (q < |s| && s[q - 1] == '.' && IsUpper(s[q])))
    && (p < q < |s| ==> !(s[q - 1] == '.' && IsUpper(s[q])))
  }

  lemma JoinCons(a: string, rest: seq<string>, sep: string)
    requires |rest| >= 1
    ensures Join([a] + rest, sep) == a + sep + Join(rest, sep)
  {
    assert ([a] + rest)[1..] == rest;
  }

  lemma {:induction false} SplitJoin(s: string, p: nat, q: nat)
    requires SplitState(s, p, q)
    ensures Join(SplitFrom(s, p, q), "_") == s[p..q] + SnakeFrom(s, q)
    decreases |s| - q, q - p, 1
  {
    if q < |s| {
      var m := MatchEnd(s, q);
      if m.None? || m.value == p {
        SplitJoinCopy(s, p, q);
      } else if m.value == q + 1 {
        SplitJoinDot(s, p, q);
      } else {
        SplitJoinCapital(s, p, q);
      }
    }
  }

  /** No split at `q`: the character is copied into the current piece. */
  lemma {:induction false} SplitJoinCopy(s: string, p: nat, q: nat)
    requires SplitState(s, p, q) && q < |s|
    requires MatchEnd(s, q).None? || MatchEnd(s, q).value == p
    ensures Join(SplitFrom(s, p, q), "_") == s[p..q] + SnakeFrom(s, q)
    decreases |s| - q, q - p, 0
  {
    assert s[p..q + 1] == s[p..q] + [s[q]];
    assert Piece(s, q) == [s[q]];
    assert SplitFrom(s, p, q) == SplitFrom(s, p, q + 1);
    assert SplitState(s, p, q + 1);
    SplitJoin(s, p, q + 1);
    assert SnakeFrom(s, q) == [s[q]] + SnakeFrom(s, q + 1);
  }

  /** A dot before a capital ends the piece and is consumed. */
  lemma {:induction false} SplitJoinDot(s: string, p: nat, q: nat)
    requires SplitState(s, p, q) && q < |s|
    requires MatchEnd(s, q) == Some(q + 1) && p != q + 1
    ensures Join(SplitFrom(s, p, q), "_") == s[p..q] + SnakeFrom(s, q)
    decreases |s| - q, q - p, 0
  {
    var rest := SplitFrom(s, q + 1, q + 1);
    assert Piece(s, q) == "_";
    assert SnakeFrom(s, q) == "_" + SnakeFrom(s, q + 1);
    assert SplitFrom(s, p, q) == [s[p..q]] + rest;
    assert SplitState(s, q + 1, q + 1);
    SplitJoin(s, q + 1, q + 1);
    assert Join(rest, "_") == SnakeFrom(s, q + 1);
    JoinCons(s[p..q], rest, "_");
    AppendAssoc(s[p..q], "_", SnakeFrom(s, q + 1));
  }

  /** A capital that does not start the piece starts a new one. */
  lemma {:induction false} SplitJoinCapital(s: string, p: nat, q: nat)
    requires SplitState(s, p, q) && q < |s|
    requires MatchEnd(s, q) == Some(q) && p != q
    ensures Join(SplitFrom(s, p, q), "_") == s[p..q] + SnakeFrom(s, q)
    decreases |s| - q, q - p, 0
  {
    SplitAtCapital(s, p, q);
    SnakeAtCapital(s, p, q);
    var rest := SplitFrom(s, q, q + 1);
    SplitJoin(s, q, q + 1);
    JoinCons(s[p..q], rest, "_");
    assert s[q..q + 1] == [s[q]];
    AppendAssoc(s[p..q], "_", [s[q]] + SnakeFrom(s, q + 1));
    AppendAssoc("_", [s[q]], SnakeFrom(s, q + 1));
  }

  lemma SplitAtCapital(s: string, p: nat, q: nat)
    requires SplitState(s, p, q) && q < |s|
    requires MatchEnd(s, q) == Some(q) && p != q
    ensures SplitFrom(s, p, q) == [s[p..q]] + SplitFrom(s, q, q + 1)
    ensures SplitState(s, q, q + 1)
  {
    assert SplitFrom(s, q, q) == SplitFrom(s, q, q + 1);
  }

  lemma SnakeAtCapital(s: string, p: nat, q: nat)
    requires SplitState(s, p, q) && q < |s|
    requires MatchEnd(s, q) == Some(q) && p != q
    ensures SnakeFrom(s, q) == ("_" + [s[q]]) + SnakeFrom(s, q + 1)
  {
    assert s[q - 1] != '.';
    assert Piece(s, q) == "_" + [s[q]];
  }

  /** camelCaseToSnakeCase is the lower-cased reference definition. */
  lemma SnakeCaseReference(str: string)
    ensures CamelCaseToSnakeCase(str) == Lower(SnakeFrom(str, 0))
  {
    assert SplitState(str, 0, 0);
    SplitJoin(str, 0, 0);
    assert str[0..0] + SnakeFrom(str, 0) == SnakeFrom(str, 0);
    assert Join(Split(str), "_") == SnakeFrom(str, 0);
  }

  /** The environment-variable name is the upper-cased reference form. */
  lemma EnvKeyAsSnake(key: string)
    ensures EnvKey(key) == Upper(SnakeFrom(key, 0))
  {
    SnakeCaseReference(key);
    UpperOfLower(SnakeFrom(key, 0));
  }

  lemma {:induction false} SnakeFromWithoutUpper(s: string, i: nat)
    requires i <= |s|
    requires forall j :: i <= j < |s| ==> !IsUpper(s[j])
    ensures SnakeFrom(s, i) == s[i..]
    decreases |s| - i
  {
    if i < |s| {
      SnakeFromWithoutUpper(s, i + 1);
      assert s[i..] == [s[i]] + s[i + 1..];
    }
  }

  /** A key without capitals only changes case: `pvp` becomes `PVP`. */
  lemma SnakeCaseWithoutUpper(str: string)
    requires forall j :: 0 <= j < |str| ==> !IsUpper(str[j])
    ensures CamelCaseToSnakeCase(str) == Lower(str)
    ensures EnvKey(str) == Upper(str)
  {
    SnakeCaseReference(str);
    SnakeFromWithoutUpper(str, 0);
    UpperOfLower(str);
  }

  /** The capitals of `s` from index `i` on that receive a `_` of their own. */
  function Boundaries(s: string, i: nat): nat
    requires i <= |s|
    decreases |s| - i
  {
    if i == |s| then 0
    else (if IsUpper(s[i]) && i > 0 && s[i - 1] != '.' then 1 else 0) + Boundaries(s, i + 1)
  }

  lemma {:induction false} SnakeFromLength(s: string, i: nat)
    requires i <= |s|
    ensures |SnakeFrom(s, i)| == |s| - i + Boundaries(s, i)
    decreases |s| - i
  {
    if i < |s| {
      SnakeFromLength(s, i + 1);
    }
  }

  /**
   * Exactly one `_` is added per capital that is not the first character and
   * does not follow a dot (a dot before a capital is replaced, not kept).
   */
  lemma SnakeCaseLength(str: string)
    ensures |CamelCaseToSnakeCase(str)| == |str| + Boundaries(str, 0)
  {
    SnakeCaseReference(str);
    SnakeFromLength(str, 0);
    LowerHasNoUpper(SnakeFrom(str, 0));
  }

  lemma AppendAssoc<T>(a: seq<T>, b: seq<T>, c: seq<T>)
    ensures (a + b) + c == a + (b + c)
  {}

  /** A character the reference definition copies whatever surrounds it. */
  predicate PlainChar(c: char) {
    !IsUpper(c) && c != '.'
  }

  ghost predicate PlainWord(w: string) {
    forall k :: 0 <= k < |w| ==> PlainChar(w[k])
  }

  /** A capital followed by plain characters, like `Nether`. */
  ghost predicate CapitalWord(w: string) {
    && |w| >= 1
    && IsUpper(w[0])
    && forall k :: 1 <= k < |w| ==> PlainChar(w[k])
  }

  lemma {:induction false} SnakeFromPlainRun(s: string, i: nat, j: nat)
    requires i <= j <= |s|
    requires forall k :: i <= k < j ==> PlainChar(s[k])
    ensures SnakeFrom(s, i) == s[i..j] + SnakeFrom(s, j)
    decreases j - i
  {
    if i < j {
      SnakeFromPlainRun(s, i + 1, j);
      assert Piece(s, i) == [s[i]];
      assert SnakeFrom(s, i) == [s[i]] + SnakeFrom(s, i + 1);
      assert s[i..j] == [s[i]] + s[i + 1..j];
      AppendAssoc([s[i]], s[i + 1..j], SnakeFrom(s, j));
    } else {
      assert s[i..j] == [];
    }
  }

  /** A capital that does not follow a dot starts a word with one `_`. */
  lemma SnakeFromWord(s: string, i: nat, j: nat)
    requires 0 < i < j <= |s| && IsUpper(s[i]) && s[i - 1] != '.'
    requires forall k :: i < k < j ==> PlainChar(s[k])
    ensures SnakeFrom(s, i) == "_" + (s[i..j] + SnakeFrom(s, j))
  {
    assert Piece(s, i) == "_" + [s[i]];
    assert SnakeFrom(s, i) == ("_" + [s[i]]) + SnakeFrom(s, i + 1);
    SnakeFromPlainRun(s, i + 1, j);
    var w := s[i + 1..j];
    assert s[i..j][0] == s[i] && s[i..j][1..] == w;
    assert s[i..j] == [s[i]] + w;
    AppendAssoc("_", [s[i]], w + SnakeFrom(s, j));
    AppendAssoc([s[i]], w, SnakeFrom(s, j));
  }

  /** A leading plain word is copied. */
  lemma SnakePlainPrefix(a: string, t: string)
    requires PlainWord(a)
    ensures SnakeFrom(a + t, 0) == a + SnakeFrom(a + t, |a|)
  {
    var s := a + t;
    assert forall k :: 0 <= k < |a| ==> s[k] == a[k];
    SnakeFromPlainRun(s, 0, |a|);
    assert s[0..|a|] == a;
  }

  /** A capital word after anything but a dot gets one `_` before it. */
  lemma SnakeCapitalWord(u: string, b: string, t: string)
    requires u != [] && u[|u| - 1] != '.' && CapitalWord(b)
    ensures SnakeFrom(u + (b + t), |u|) == "_" + (b + SnakeFrom(u + (b + t), |u| + |b|))
  {
    var s := u + (b + t);
    assert s[|u| - 1] == u[|u| - 1];
    assert forall k :: |u| <= k < |u| + |b| ==> s[k] == b[k - |u|];
    SnakeFromWord(s, |u|, |u| + |b|);
    assert s[|u|..|u| + |b|] == b;
  }

  /** `allowNether`: one `_` before the capital, then upper case. */
  lemma EnvKeyTwoWords(a: string, b: string)
    requires a != [] && PlainWord(a) && CapitalWord(b)
    ensures EnvKey(a + b) == Upper(a) + ("_" + Upper(b))
  {
    assert b + [] == b;
    SnakePlainPrefix(a, b);
    SnakeCapitalWord(a, b, []);
    assert SnakeFrom(a + b, |a| + |b|) == [];
    EnvKeyAsSnake(a + b);
    UpperAppend(a, "_" + b);
    UpperAppend("_", b);
  }

  lemma SnakeThreeWords(a: string, b: string, c: string)
    requires a != [] && PlainWord(a) && CapitalWord(b) && CapitalWord(c)
    ensures SnakeFrom(a + (b + c), 0) == a + ("_" + (b + ("_" + c)))
  {
    var s := a + (b + c);
    SnakePlainPrefix(a, b + c);
    SnakeCapitalWord(a, b, c);
    AppendAssoc(a, b, c);
    assert c + [] == c;
    assert (a + b)[|a + b| - 1] == b[|b| - 1];
    SnakeCapitalWord(a + b, c, []);
    assert SnakeFrom(s, |s|) == [];
  }

  /** `maxBuildHeight`: one `_` before each of the two capitals. */
  lemma EnvKeyThreeWords(a: string, b: string, c: string)
    requires a != [] && PlainWord(a) && CapitalWord(b) && CapitalWord(c)
    ensures EnvKey(a + (b + c)) == Upper(a) + ("_" + (Upper(b) + ("_" + Upper(c))))
  {
    SnakeThreeWords(a, b, c);
    EnvKeyAsSnake(a + (b + c));
    UpperAppend(a, "_" + (b + ("_" + c)));
    UpperAppend("_", b + ("_" + c));
    UpperAppend(b, "_" + c);
    UpperAppend("_", c);
  }

  // ---------------------------------------------------------------------
  // objectToEnvValues
  // ---------------------------------------------------------------------

  /**
   * The map `objectToEnvValues` builds from an object given as its entries in
   * `Object.keys` order: each step writes one translated key.
   */
  function EnvValues<V>(obj: seq<(string, V)>): (env: map<string, V>)
    decreases |obj|
    ensures obj != [] ==> EnvKey(obj[|obj| - 1].0) in env && env[EnvKey(obj[|obj| - 1].0)] == obj[|obj| - 1].1
  {
    if obj == [] then map[]
    else EnvValues(obj[..|obj| - 1])[EnvKey(obj[|obj| - 1].0) := obj[|obj| - 1].1]
  }

  method ObjectToEnvValues<V>(obj: seq<(string, V)>) returns (res: map<string, V>)
    ensures res == EnvValues(obj)
  {
    res := map[];
    for i := 0 to |obj|
      invariant res == EnvValues(obj[..i])
    {
      assert obj[..i + 1][..i] == obj[..i];
      res := res[EnvKey(obj[i].0) := obj[i].1];
    }
    assert obj[..|obj|] == obj;
  }

  /** The output has exactly the translated keys of the input. */
  lemma {:induction false} EnvValuesKeys<V>(obj: seq<(string, V)>)
    ensures forall k :: k in EnvValues(obj) <==> exists i :: 0 <= i < |obj| && EnvKey(obj[i].0) == k
    decreases |obj|
  {
    if obj != [] {
      var front := obj[..|obj| - 1];
      var last := obj[|obj| - 1];
      EnvValuesKeys(front);
      assert EnvValues(obj) == EnvValues(front)[EnvKey(last.0) := last.1];
      forall k | k in EnvValues(obj)
        ensures exists i :: 0 <= i < |obj| && EnvKey(obj[i].0) == k
      {
        if k != EnvKey(last.0) {
          assert k in EnvValues(front);
          var i :| 0 <= i < |front| && EnvKey(front[i].0) == k;
          assert obj[i] == front[i];
        }
      }
      forall k | exists i :: 0 <= i < |obj| && EnvKey(obj[i].0) == k
        ensures k in EnvValues(obj)
      {
        var i :| 0 <= i < |obj| && EnvKey(obj[i].0) == k;
        if i < |front| {
          assert front[i] == obj[i];
        }
      }
    }
  }

  /** An entry keeps its value unless a later entry translates to the same key. */
  lemma {:induction false} EnvValuesLastWins<V>(obj: seq<(string, V)>, i: nat)
    requires i < |obj|
    requires forall j :: i < j < |obj| ==> EnvKey(obj[j].0) != EnvKey(obj[i].0)
    ensures EnvKey(obj[i].0) in EnvValues(obj)
    ensures EnvValues(obj)[EnvKey(obj[i].0)] == obj[i].1
    decreases |obj|
  {
    if i < |obj| - 1 {
      var front := obj[..|obj| - 1];
      assert front[i] == obj[i];
      forall j | i < j < |front| ensures EnvKey(front[j].0) != EnvKey(front[i].0) {
        assert front[j] == obj[j];
      }
      EnvValuesLastWins(front, i);
    }
  }

  // ---------------------------------------------------------------------
  // createStackName: `${name}`.replace(/[^a-zA-Z0-9-_ ]/g, '').replace(/[ ]+/g, '_')
  // ---------------------------------------------------------------------

  /** The class `[a-zA-Z0-9-_ ]`. */
  predicate IsAllowed(c: char) {
    IsLowerLetter(c) || IsUpper(c) || ('0' <= c <= '9') || c == '-' || c == '_' || c == ' '
  }

  ghost predicate AllAllowed(s: string) {
    forall c :: c in s ==> IsAllowed(c)
  }

  /** Only `[A-Za-z0-9-_]`: what a stack name, a path segment and a volume need. */
  ghost predicate IsSafeName(s: string) {
    AllAllowed(s) && ' ' !in s
  }

  /** The first replacement: every character outside the class is deleted. */
  function StripDisallowed(s: string): (r: string)
    ensures |r| <= |s|
  {
    if s == [] then []
    else (if IsAllowed(s[0]) then [s[0]] else []) + StripDisallowed(s[1..])
  }

  lemma {:induction false} StripOutput(s: string)
    ensures AllAllowed(StripDisallowed(s))
  {
    if s != [] {
      StripOutput(s[1..]);
    }
  }

  lemma {:induction false} StripAppend(a: string, b: string)
    ensures StripDisallowed(a + b) == StripDisallowed(a) + StripDisallowed(b)
  {
    if a == [] {
      assert a + b == b;
    } else {
      assert (a + b)[0] == a[0];
      assert (a + b)[1..] == a[1..] + b;
      StripAppend(a[1..], b);
      var head := if IsAllowed(a[0]) then [a[0]] else [];
      assert head + StripDisallowed(a[1..]) + StripDisallowed(b)
        == StripDisallowed(a) + StripDisallowed(b);
    }
  }

  /** Drops the rest of a run of spaces. */
  function DropSpaces(s: string): (r: string)
    ensures |r| <= |s|
  {
    if s != [] && s[0] == ' ' then DropSpaces(s[1..]) else s
  }

  /** What is left is a suffix that does not start with a space. */
  lemma {:induction false} DropSpacesSuffix(s: string)
    ensures DropSpaces(s) == s[|s| - |DropSpaces(s)|..]
    ensures DropSpaces(s) == [] || DropSpaces(s)[0] != ' '
  {
    if s != [] && s[0] == ' ' {
      DropSpacesSuffix(s[1..]);
      assert s[1..][|s| - 1 - |DropSpaces(s)|..] == s[|s| - |DropSpaces(s)|..];
    }
  }

  /** The second replacement: each maximal run of spaces becomes one `_`. */
  function CollapseSpaces(s: string): (r: string)
    ensures |r| <= |s|
    decreases |s|
  {
    if s == [] then []
    else if s[0] == ' ' then "_" + CollapseSpaces(DropSpaces(s[1..]))
    else [s[0]] + CollapseSpaces(s[1..])
  }

  /** Collapsing leaves no space and adds no character but `_`. */
  lemma {:induction false} CollapseOutput(s: string)
    ensures forall c :: c in CollapseSpaces(s) ==> c == '_' || (c in s && c != ' ')
    decreases |s|
  {
    if s != [] {
      if s[0] == ' ' {
        var r := DropSpaces(s[1..]);
        CollapseOutput(r);
        DropSpacesSuffix(s[1..]);
        assert r == s[|s| - |r|..];
        assert forall c :: c in r ==> c in s;
      } else {
        CollapseOutput(s[1..]);
        assert forall c :: c in s[1..] ==> c in s;
      }
    }
  }

  function CreateStackName(name: string): (r: string)
    ensures IsSafeName(r)
    ensures |r| <= |name|
  {
    StripOutput(name);
    CollapseOutput(StripDisallowed(name));
    CollapseSpaces(StripDisallowed(name))
  }

  lemma {:induction false} StripKeepsAllowed(s: string)
    requires AllAllowed(s)
    ensures StripDisallowed(s) == s
  {
    if s != [] {
      assert s[0] in s;
      assert forall c :: c in s[1..] ==> c in s;
      StripKeepsAllowed(s[1..]);
      assert s == [s[0]] + s[1..];
    }
  }

  lemma {:induction false} CollapseKeepsSpaceFree(s: string)
    requires ' ' !in s
    ensures CollapseSpaces(s) == s
  {
    if s != [] {
      assert s[0] in s;
      assert s[1..] <= s || ' ' !in s[1..];
      CollapseKeepsSpaceFree(s[1..]);
      assert s == [s[0]] + s[1..];
    }
  }

  /** A name made only of `[A-Za-z0-9-_]` is returned unchanged. */
  lemma CreateStackNameKeepsSafe(name: string)
    requires IsSafeName(name)
    ensures CreateStackName(name) == name
  {
    StripKeepsAllowed(name);
    CollapseKeepsSpaceFree(name);
  }

  lemma CreateStackNameIdempotent(name: string)
    ensures CreateStackName(CreateStackName(name)) == CreateStackName(name)
  {
    CreateStackNameKeepsSafe(CreateStackName(name));
  }

  function Spaces(k: nat): string {
    if k == 0 then "" else " " + Spaces(k - 1)
  }

  predicate EndsInNonSpace(s: string) {
    s == [] || s[|s| - 1] != ' '
  }

  lemma {:induction false} DropSpacesAppend(x: string, t: string)
    requires x != [] && EndsInNonSpace(x)
    ensures DropSpaces(x + t) == DropSpaces(x) + t
    ensures DropSpaces(x) != [] && EndsInNonSpace(DropSpaces(x))
  {
    if x[0] == ' ' {
      assert (x + t)[1..] == x[1..] + t;
      DropSpacesAppend(x[1..], t);
    }
    DropSpacesSuffix(x);
  }

  /** Collapsing splits at a boundary that does not cut a run of spaces. */
  lemma {:induction false} CollapseAppend(a: string, t: string)
    requires EndsInNonSpace(a)
    ensures CollapseSpaces(a + t) == CollapseSpaces(a) + CollapseSpaces(t)
    decreases |a|, 1
  {
    if a == [] {
      assert a + t == t;
    } else if a[0] == ' ' {
      CollapseAppendRun(a, t);
    } else {
      CollapseAppendCopy(a, t);
    }
  }

  lemma {:induction false} CollapseAppendRun(a: string, t: string)
    requires a != [] && a[0] == ' ' && EndsInNonSpace(a)
    ensures CollapseSpaces(a + t) == CollapseSpaces(a) + CollapseSpaces(t)
    decreases |a|, 0
  {
    assert (a + t)[0] == ' ';
    assert (a + t)[1..] == a[1..] + t;
    var d := DropSpaces(a[1..]);
    DropSpacesAppend(a[1..], t);
    CollapseAppend(d, t);
    calc {
      CollapseSpaces(a + t);
      "_" + CollapseSpaces(DropSpaces(a[1..] + t));
      "_" + CollapseSpaces(d + t);
      "_" + (CollapseSpaces(d) + CollapseSpaces(t));
      ("_" + CollapseSpaces(d)) + CollapseSpaces(t);
      CollapseSpaces(a) + CollapseSpaces(t);
    }
  }

  lemma {:induction false} CollapseAppendCopy(a: string, t: string)
    requires a != [] && a[0] != ' ' && EndsInNonSpace(a)
    ensures CollapseSpaces(a + t) == CollapseSpaces(a) + CollapseSpaces(t)
    decreases |a|, 0
  {
    assert (a + t)[0] == a[0];
    assert (a + t)[1..] == a[1..] + t;
    CollapseAppend(a[1..], t);
    calc {
      CollapseSpaces(a + t);
      [a[0]] + CollapseSpaces(a[1..] + t);
      [a[0]] + (CollapseSpaces(a[1..]) + CollapseSpaces(t));
      ([a[0]] + CollapseSpaces(a[1..])) + CollapseSpaces(t);
      CollapseSpaces(a) + CollapseSpaces(t);
    }
  }

  lemma {:induction false} DropSpacesRun(k: nat, b: string)
    requires b == [] || b[0] != ' '
    ensures DropSpaces(Spaces(k) + b) == b
  {
    if k > 0 {
      assert (Spaces(k) + b)[0] == ' ';
      assert (Spaces(k) + b)[1..] == Spaces(k - 1) + b;
      DropSpacesRun(k - 1, b);
    }
  }

  lemma {:induction false} CollapseLeadingRun(k: nat, b: string)
    requires k >= 1
    requires b == [] || b[0] != ' '
    ensures CollapseSpaces(Spaces(k) + b) == "_" + CollapseSpaces(b)
  {
    var t := Spaces(k) + b;
    assert t[0] == ' ';
    assert t[1..] == Spaces(k - 1) + b;
    DropSpacesRun(k - 1, b);
    assert CollapseSpaces(t) == "_" + CollapseSpaces(DropSpaces(t[1..]));
  }

  /**
   * A run of `k >= 1` spaces between two parts that do not continue it
   * becomes exactly one `_`.
   */
  lemma SpaceRunBecomesUnderscore(a: string, k: nat, b: string)
    requires k >= 1
    requires EndsInNonSpace(a)
    requires b == [] || b[0] != ' '
    ensures CollapseSpaces(a + (Spaces(k) + b)) == CollapseSpaces(a) + ("_" + CollapseSpaces(b))
  {
    CollapseAppend(a, Spaces(k) + b);
    CollapseLeadingRun(k, b);
  }

  lemma {:induction false} StripNone(s: string)
    requires forall i :: 0 <= i < |s| ==> !IsAllowed(s[i])
    ensures StripDisallowed(s) == []
  {
    if s != [] {
      StripNone(s[1..]);
    }
  }

  /** Characters outside `[a-zA-Z0-9-_ ]` are deleted wherever they occur. */
  lemma CreateStackNameDropsDisallowed(a: string, x: string, b: string)
    requires forall i :: 0 <= i < |x| ==> !IsAllowed(x[i])
    ensures CreateStackName(a + (x + b)) == CreateStackName(a + b)
  {
    StripAppend(a, x + b);
    StripAppend(x, b);
    StripNone(x);
    StripAppend(a, b);
    assert StripDisallowed(x) + StripDisallowed(b) == StripDisallowed(b);
  }

  /**
   * A run of spaces after a non-empty safe word becomes one `_`, and the
   * rest of the name is treated on its own.
   */
  lemma CreateStackNameSpaceRun(a: string, k: nat, t: string)
    requires IsSafeName(a) && a != []
    requires k >= 1
    requires AllAllowed(t) && (t == [] || t[0] != ' ')
    ensures CreateStackName(a + (Spaces(k) + t)) == a + ("_" + CreateStackName(t))
  {
    assert a[|a| - 1] in a;
    SpacesAllowed(k);
    assert AllAllowed(a + (Spaces(k) + t));
    StripKeepsAllowed(a + (Spaces(k) + t));
    StripKeepsAllowed(t);
    SpaceRunBecomesUnderscore(a, k, t);
    CollapseKeepsSpaceFree(a);
  }

  lemma {:induction false} SpacesAllowed(k: nat)
    ensures AllAllowed(Spaces(k))
  {
    if k > 0 {
      SpacesAllowed(k - 1);
    }
  }
}
