/**
 * `applyDefaults` of scripts/utils/ClassNameDefaults.tsx: merging a list of
 * default CSS classes into a caller's class string, where a default is kept
 * out when a caller class already sets the same property.
 */
module ClassNames {
  import opened Wrappers

  /** The keys of `defaultOptions`, in its order. */
  datatype OptionKey = Width | Height | Top | Left | Right | Bottom | Position | PointerEvents

  /**
   * `defaultOptions`: for each key, the prefix its test looks for at the
   * start of a caller class.
   */
  const DefaultOptions: map<OptionKey, string> := map[
    Width := "w-",
    Height := "h-",
    Top := "top-",
    Left := "left-",
    Right := "right-",
    Bottom := "bottom-",
    Position := "position-",
    PointerEvents := "pointer-events-"
  ]

  /** `option.startsWith(prefix)`. */
  predicate StartsWith(option: string, prefix: string) {
    |prefix| <= |option| && option[..|prefix|] == prefix
  }

  /** The test `defaultOptions[k]` applies to a caller class. */
  predicate Passes(k: OptionKey, option: string) {
    k in DefaultOptions && StartsWith(option, DefaultOptions[k])
  }

  // ---------------------------------------------------------------------
  // split(" ") and join(" ")
  // ---------------------------------------------------------------------

  /** `s.split(" ")`: the pieces between single spaces, empty ones included. */
  function Split(s: string): (r: seq<string>)
    ensures |r| >= 1
    ensures forall x :: 0 <= x < |r| ==> ' ' !in r[x]
  {
    if |s| == 0 then [""]
    else
      var rest := Split(s[1..]);
      if s[0] == ' ' then [""] + rest
      else [[s[0]] + rest[0]] + rest[1..]
  }

  /** `tokens.join(" ")`. */
  function Join(tokens: seq<string>): string {
    if |tokens| == 0 then ""
    else if |tokens| == 1 then tokens[0]
    else tokens[0] + " " + Join(tokens[1..])
  }

  predicate SpaceFree(tokens: seq<string>) {
    forall x :: 0 <= x < |tokens| ==> ' ' !in tokens[x]
  }

  /** Splitting a join of space-free tokens gives the tokens back. */
  lemma {:induction false} SplitJoin(tokens: seq<string>)
    requires |tokens| >= 1 && SpaceFree(tokens)
    ensures Split(Join(tokens)) == tokens
    decreases |tokens|, |tokens[0]|
  {
    var t := tokens[0];
    if |t| == 0 {
      if |tokens| > 1 {
        var s := Join(tokens);
        assert s == " " + Join(tokens[1..]);
        assert s[1..] == Join(tokens[1..]);
        SplitJoin(tokens[1..]);
      }
    } else {
      var s := Join(tokens);
      var shorter := [t[1..]] + tokens[1..];
      assert Join(shorter)[..] == s[1..] by {
        if |tokens| > 1 {
          assert s == t + " " + Join(tokens[1..]);
          assert Join(shorter) == t[1..] + " " + Join(tokens[1..]);
        }
      }
      assert t[0] != ' ' by {
        assert t[0] in tokens[0];
      }
      assert SpaceFree(shorter) by {
        forall c | c in t[1..]
          ensures c in t
        {
        }
      }
      SplitJoin(shorter);
      assert [t[0]] + t[1..] == t;
    }
  }

  /** Joining the pieces of a split gives the string back. */
  lemma {:induction false} JoinSplit(s: string)
    ensures Join(Split(s)) == s
    decreases |s|
  {
    if |s| > 0 {
      var rest := Split(s[1..]);
      JoinSplit(s[1..]);
      if s[0] == ' ' {
        assert Split(s) == [""] + rest;
      } else {
        var r := Split(s);
        assert r == [[s[0]] + rest[0]] + rest[1..];
        if |rest| > 1 {
          assert rest == [rest[0]] + rest[1..];
          assert Join(rest) == rest[0] + " " + Join(rest[1..]);
        }
      }
      assert s == [s[0]] + s[1..];
    }
  }

  // ---------------------------------------------------------------------
  // applyDefaults
  // ---------------------------------------------------------------------

  /** `className?.split(" ") ?? []`. */
  function Tokens(className: Option<string>): (r: seq<string>)
    ensures SpaceFree(r)
  {
    match className
    case None => []
    case Some(s) => Split(s)
  }

  /** One of the first `n` caller classes passes the test of `k`. */
  predicate PassedBy(tokens: seq<string>, k: OptionKey, n: nat)
    requires n <= |tokens|
  {
    n > 0 && (PassedBy(tokens, k, n - 1) || Passes(k, tokens[n - 1]))
  }

  /** `flags[j]` once the loop over the caller classes is done. */
  predicate AnyPasses(tokens: seq<string>, k: OptionKey) {
    PassedBy(tokens, k, |tokens|)
  }

  lemma {:induction false} PassedByMeans(tokens: seq<string>, k: OptionKey, n: nat)
    requires n <= |tokens|
    ensures PassedBy(tokens, k, n) <==> exists x :: 0 <= x < n && Passes(k, tokens[x])
  {
    if n > 0 {
      PassedByMeans(tokens, k, n - 1);
    }
  }

  /**
   * The values of the default entries (`Object.entries(defaults)`, in entry
   * order) whose test no caller class passes.
   */
  function Appended(tokens: seq<string>, defaults: seq<(OptionKey, string)>): seq<string> {
    if defaults == [] then []
    else
      var last := defaults[|defaults| - 1];
      Appended(tokens, defaults[..|defaults| - 1]) + (if AnyPasses(tokens, last.0) then [] else [last.1])
  }

  /** The class list `applyDefaults` joins. */
  function ResultTokens(className: Option<string>, defaults: seq<(OptionKey, string)>): seq<string> {
    Tokens(className) + Appended(Tokens(className), defaults)
  }

  function ApplyDefaults(className: Option<string>, defaults: seq<(OptionKey, string)>): string {
    Join(ResultTokens(className, defaults))
  }

  /** The inner loop of `applyDefaults`: the defaults caller class `option` covers get their flag set. */
  method MarkCovered(flags: array<bool>, option: string, defaults: seq<(OptionKey, string)>)
    requires flags.Length == |defaults|
    modifies flags
    ensures forall m :: 0 <= m < |defaults| ==> flags[m] == (old(flags[m]) || Passes(defaults[m].0, option))
  {
    var j := 0;
    while j < |defaults|
      invariant 0 <= j <= |defaults|
      invariant forall m :: 0 <= m < j ==> flags[m] == (old(flags[m]) || Passes(defaults[m].0, option))
      invariant forall m :: j <= m < |defaults| ==> flags[m] == old(flags[m])
    {
      if Passes(defaults[j].0, option) {
        flags[j] := true;
      }
      j := j + 1;
    }
  }

  /** The flags loop and the push loop of `applyDefaults`. */
  method ApplyDefaultsLoop(className: Option<string>, defaults: seq<(OptionKey, string)>) returns (s: string)
    ensures s == ApplyDefaults(className, defaults)
  {
    var classOptions := Tokens(className);
    var tokens := classOptions;
    var flags := new bool[|defaults|](_ => false);
    var i := 0;
    while i < |tokens|
      invariant 0 <= i <= |tokens|
      invariant forall m :: 0 <= m < |defaults| ==> flags[m] == PassedBy(tokens, defaults[m].0, i)
    {
      MarkCovered(flags, tokens[i], defaults);
      i := i + 1;
    }
    i := 0;
    while i < |defaults|
      invariant 0 <= i <= |defaults|
      invariant classOptions == tokens + Appended(tokens, defaults[..i])
    {
      assert defaults[..i + 1][..i] == defaults[..i];
      if !flags[i] {
        classOptions := classOptions + [defaults[i].1];
      }
      i := i + 1;
    }
    assert defaults[..|defaults|] == defaults;
    return Join(classOptions);
  }

  // ---------------------------------------------------------------------
  // Properties
  // ---------------------------------------------------------------------

  /**
   * The appended classes are the values of the entries no caller class
   * covers, each once, in entry order: `idx` lists those entries' positions,
   * increasing, and misses none of them.
   */
  lemma {:induction false} AppendedEntries(tokens: seq<string>, defaults: seq<(OptionKey, string)>) returns (idx: seq<nat>)
    ensures |idx| == |Appended(tokens, defaults)|
    ensures forall m :: 0 <= m < |idx| ==>
      idx[m] < |defaults| && Appended(tokens, defaults)[m] == defaults[idx[m]].1 && !AnyPasses(tokens, defaults[idx[m]].0)
    ensures forall m, n :: 0 <= m < n < |idx| ==> idx[m] < idx[n]
    ensures forall e :: 0 <= e < |defaults| && !AnyPasses(tokens, defaults[e].0) ==> e in idx
    decreases |defaults|
  {
    if defaults == [] {
      idx := [];
    } else {
      var n := |defaults| - 1;
      var init := defaults[..n];
      var before := AppendedEntries(tokens, init);
      var earlier := Appended(tokens, init);
      var covered := AnyPasses(tokens, defaults[n].0);
      assert Appended(tokens, defaults) == earlier + (if covered then [] else [defaults[n].1]);
      idx := if covered then before else before + [n];
      forall m | 0 <= m < |before|
        ensures idx[m] == before[m] && Appended(tokens, defaults)[m] == earlier[m]
        ensures defaults[idx[m]] == init[before[m]]
      {
      }
      forall e | 0 <= e < n && !AnyPasses(tokens, defaults[e].0)
        ensures e in idx
      {
        assert init[e] == defaults[e];
        assert e in before;
      }
    }
  }

  /** Joining two non-empty lists is joining each and putting one space between. */
  lemma {:induction false} JoinAppend(a: seq<string>, b: seq<string>)
    requires |a| >= 1 && |b| >= 1
    ensures Join(a + b) == Join(a) + " " + Join(b)
    decreases |a|
  {
    if |a| > 1 {
      JoinAppend(a[1..], b);
      assert (a + b)[1..] == a[1..] + b;
    }
  }

  /** `Split` one character at a time. */
  lemma SplitCons(c: char, t: string)
    ensures Split([c] + t) == if c == ' ' then [""] + Split(t) else [[c] + Split(t)[0]] + Split(t)[1..]
  {
    assert ([c] + t)[0] == c && ([c] + t)[1..] == t;
  }

  /** The step of `Split` for one character commutes with appending further pieces. */
  lemma ConsPieces(c: char, head: seq<string>, tail: seq<string>)
    requires |head| >= 1
    ensures (if c == ' ' then [""] + (head + tail) else [[c] + (head + tail)[0]] + (head + tail)[1..])
         == (if c == ' ' then [""] + head else [[c] + head[0]] + head[1..]) + tail
  {
    if c != ' ' {
      assert (head + tail)[0] == head[0] && (head + tail)[1..] == head[1..] + tail;
    }
  }

  /** One more character in front keeps the split around a space. */
  lemma SplitSpaceAppendCons(c: char, t: string, x: string)
    requires Split(t + " " + x) == Split(t) + Split(x)
    ensures Split([c] + (t + " " + x)) == Split([c] + t) + Split(x)
  {
    SplitCons(c, t);
    SplitCons(c, t + " " + x);
    ConsPieces(c, Split(t), Split(x));
  }

  /** A space splits the string into the pieces before it and the pieces after it. */
  lemma {:induction false} SplitSpaceAppend(s: string, x: string)
    ensures Split(s + " " + x) == Split(s) + Split(x)
    decreases |s|
  {
    if |s| == 0 {
      assert s + " " + x == [' '] + x;
      SplitCons(' ', x);
    } else {
      var c, t := s[0], s[1..];
      assert s == [c] + t;
      assert s + " " + x == [c] + (t + " " + x);
      SplitSpaceAppend(t, x);
      SplitSpaceAppendCons(c, t, x);
    }
  }

  /** The caller's classes come first in the result, unchanged and in their order, whatever the defaults hold. */
  lemma CallerClassesLead(className: Option<string>, defaults: seq<(OptionKey, string)>)
    ensures |Tokens(className)| <= |Split(ApplyDefaults(className, defaults))|
    ensures Split(ApplyDefaults(className, defaults))[..|Tokens(className)|] == Tokens(className)
  {
    var tokens := Tokens(className);
    var appended := Appended(tokens, defaults);
    match className
    case None =>
    case Some(c) =>
      JoinSplit(c);
      if appended == [] {
        assert tokens + appended == tokens;
      } else {
        JoinAppend(tokens, appended);
        SplitSpaceAppend(c, Join(appended));
      }
  }

  /** With space-free default values, splitting the result gives back the whole class list. */
  lemma CallerClassesFirst(className: Option<string>, defaults: seq<(OptionKey, string)>)
    requires |ResultTokens(className, defaults)| >= 1
    requires forall e :: 0 <= e < |defaults| ==> ' ' !in defaults[e].1
    ensures Split(ApplyDefaults(className, defaults)) == ResultTokens(className, defaults)
  {
    var tokens := Tokens(className);
    var appended := Appended(tokens, defaults);
    var idx := AppendedEntries(tokens, defaults);
    assert SpaceFree(appended);
    SplitJoin(tokens + appended);
  }

  /** Without a class string every default is appended, in entry order. */
  lemma {:induction false} NoClassNameAppendsAll(defaults: seq<(OptionKey, string)>)
    ensures Appended(Tokens(None), defaults) == seq(|defaults|, e requires 0 <= e < |defaults| => defaults[e].1)
    decreases |defaults|
  {
    if defaults != [] {
      NoClassNameAppendsAll(defaults[..|defaults| - 1]);
    }
  }

  /** An empty class string is one empty class, so the result starts with a space when a default is appended. */
  lemma EmptyClassNameLeadsWithSpace(defaults: seq<(OptionKey, string)>)
    ensures Tokens(Some("")) == [""]
    ensures Appended([""], defaults) != [] ==> ApplyDefaults(Some(""), defaults) == " " + Join(Appended([""], defaults))
  {
    assert !exists k :: Passes(k, "");
  }

  /**
   * When every default value is one space-free class that passes its own
   * test, applying the defaults to the result changes nothing.
   */
  lemma ApplyDefaultsIdempotent(className: Option<string>, defaults: seq<(OptionKey, string)>)
    requires forall e :: 0 <= e < |defaults| ==> ' ' !in defaults[e].1 && Passes(defaults[e].0, defaults[e].1)
    ensures ApplyDefaults(Some(ApplyDefaults(className, defaults)), defaults) == ApplyDefaults(className, defaults)
  {
    var result := ResultTokens(className, defaults);
    if |result| == 0 {
      assert className == None;
      NoClassNameAppendsAll(defaults);
      assert defaults == [];
    } else {
      var s := ApplyDefaults(className, defaults);
      CallerClassesFirst(className, defaults);
      assert Tokens(Some(s)) == result;
      NothingMoreAppended(Tokens(className), defaults);
      assert ResultTokens(Some(s), defaults) == result + [];
      assert result + [] == result;
      assert ApplyDefaults(Some(s), defaults) == Join(result);
    }
  }

  /** A caller class passing the test of `k` sets the flag of `k`. */
  lemma {:induction false} PassingClassCovers(tokens: seq<string>, k: OptionKey, x: nat)
    requires x < |tokens| && Passes(k, tokens[x])
    ensures AnyPasses(tokens, k)
  {
    PassedByMeans(tokens, k, |tokens|);
  }

  /** Once the defaults are in, every entry's test is passed by some class. */
  lemma NothingMoreAppended(tokens: seq<string>, defaults: seq<(OptionKey, string)>)
    requires forall e :: 0 <= e < |defaults| ==> Passes(defaults[e].0, defaults[e].1)
    ensures Appended(tokens + Appended(tokens, defaults), defaults) == []
  {
    forall e | 0 <= e < |defaults|
      ensures AnyPasses(tokens + Appended(tokens, defaults), defaults[e].0)
    {
      EntryCovered(tokens, defaults, e);
    }
    NoneAppendedWhenCovered(tokens + Appended(tokens, defaults), defaults);
  }

  lemma EntryCovered(tokens: seq<string>, defaults: seq<(OptionKey, string)>, e: nat)
    requires e < |defaults| && Passes(defaults[e].0, defaults[e].1)
    ensures AnyPasses(tokens + Appended(tokens, defaults), defaults[e].0)
  {
    var result := tokens + Appended(tokens, defaults);
    var k := defaults[e].0;
    if AnyPasses(tokens, k) {
      PassedByMeans(tokens, k, |tokens|);
      var x :| 0 <= x < |tokens| && Passes(k, tokens[x]);
      assert result[x] == tokens[x];
      PassingClassCovers(result, k, x);
    } else {
      var idx := AppendedEntries(tokens, defaults);
      var m :| 0 <= m < |idx| && idx[m] == e;
      assert result[|tokens| + m] == defaults[e].1;
      PassingClassCovers(result, k, |tokens| + m);
    }
  }

  lemma {:induction false} NoneAppendedWhenCovered(tokens: seq<string>, defaults: seq<(OptionKey, string)>)
    requires forall e :: 0 <= e < |defaults| ==> AnyPasses(tokens, defaults[e].0)
    ensures Appended(tokens, defaults) == []
    decreases |defaults|
  {
    if defaults != [] {
      NoneAppendedWhenCovered(tokens, defaults[..|defaults| - 1]);
    }
  }
}
