/**
  The `$token` template expander of strings.go. A token is `$` followed by the
  longest run of `[a-zA-Z0-9_]`; tokens are found left to right without
  overlap, each is replaced once, and the text between them is copied as it is.
 */
module Template {
  import opened Options
  import opened Strconv

  predicate IsWordChar(c: char)
  {
    ('a' <= c <= 'z') || ('A' <= c <= 'Z') || ('0' <= c <= '9') || c == '_'
  }

  /** A token key: a non-empty run of word characters. */
  predicate IsKey(s: string)
  {
    |s| > 0 && forall k :: 0 <= k < |s| ==> IsWordChar(s[k])
  }

  /** The regular expression `\$[a-zA-Z0-9_]+` can start a match at `i`. */
  predicate TokenAt(s: string, i: nat)
  {
    i + 1 < |s| && s[i] == '$' && IsWordChar(s[i + 1])
  }

  /** The end of the longest run of word characters that starts at `i`. */
  function WordRunEnd(s: string, i: nat): (j: nat)
    requires i <= |s|
    ensures i <= j <= |s|
    ensures j == |s| || !IsWordChar(s[j])
    decreases |s| - i
  {
    if i < |s| && IsWordChar(s[i]) then WordRunEnd(s, i + 1) else i
  }

  /** The run is made of word characters only. */
  lemma {:induction false} WordRunIsWord(s: string, i: nat, k: nat)
    requires i <= |s| && i <= k < WordRunEnd(s, i)
    ensures IsWordChar(s[k])
    decreases |s| - i
  {
    if k > i {
      WordRunIsWord(s, i + 1, k);
    }
  }

  /** A run of word characters from `i` ending in a non-word character or the end is the run `WordRunEnd` finds. */
  lemma {:induction false} WordRunEndIs(s: string, i: nat, e: nat)
    requires i <= e <= |s|
    requires forall k :: i <= k < e ==> IsWordChar(s[k])
    requires e == |s| || !IsWordChar(s[e])
    ensures WordRunEnd(s, i) == e
    decreases e - i
  {
    if i < e {
      WordRunEndIs(s, i + 1, e);
    }
  }

  /** One match: `s[start..end]` is `$key`, and `s[start + 1..end]` is the key. */
  datatype Match = Match(start: nat, end: nat)

  /** `m` is a greedy match of the token pattern in `s`. */
  predicate IsMatch(s: string, m: Match)
  {
    m.start + 1 < m.end <= |s| && TokenAt(s, m.start) && m.end == WordRunEnd(s, m.start + 1)
  }

  /** The sub-match groups handed to the replacement: the whole match and the key. */
  function Groups(s: string, m: Match): seq<string>
    requires IsMatch(s, m)
  {
    [s[m.start..m.end], s[m.start + 1..m.end]]
  }

  /** The index pairs `FindAllSubmatchIndex` gives for a match: the whole match, then the key group. */
  function SubmatchIndex(s: string, m: Match): (v: seq<nat>)
    requires IsMatch(s, m)
    ensures |v| == 4 && v[0] <= v[1] <= |s| && v[2] <= v[3] <= |s|
    ensures s[v[0]..v[1]] == Groups(s, m)[0] && s[v[2]..v[3]] == Groups(s, m)[1]
  {
    [m.start, m.end, m.start + 1, m.end]
  }

  /** The matches `FindAllSubmatchIndex` reports in `s[i..]`, in order. */
  function FindFrom(s: string, i: nat): seq<Match>
    requires i <= |s|
    decreases |s| - i
  {
    if i == |s| then []
    else if TokenAt(s, i) then [Match(i, WordRunEnd(s, i + 1))] + FindFrom(s, WordRunEnd(s, i + 1))
    else FindFrom(s, i + 1)
  }

  /** Every reported match is a greedy token match at or after `i`, and they come in order without overlap. */
  lemma {:induction false} FindFromSound(s: string, i: nat)
    requires i <= |s|
    ensures forall k :: 0 <= k < |FindFrom(s, i)| ==> IsMatch(s, FindFrom(s, i)[k]) && i <= FindFrom(s, i)[k].start
    ensures forall k :: 0 <= k < |FindFrom(s, i)| - 1 ==> FindFrom(s, i)[k].end <= FindFrom(s, i)[k + 1].start
    decreases |s| - i
  {
    if i < |s| {
      if TokenAt(s, i) {
        var j := WordRunEnd(s, i + 1);
        FindFromSound(s, j);
        var rest := FindFrom(s, j);
        assert FindFrom(s, i) == [Match(i, j)] + rest;
        assert |rest| > 0 ==> j <= rest[0].start;
      } else {
        FindFromSound(s, i + 1);
      }
    }
  }

  /**
    Every token position at or after `i` starts a reported match; with
    `FindFromSound` this makes the match starts exactly the token positions.
   */
  lemma {:induction false} FindFromComplete(s: string, i: nat, p: nat)
    requires i <= p < |s| && TokenAt(s, p)
    ensures exists k :: 0 <= k < |FindFrom(s, i)| && FindFrom(s, i)[k].start == p
    decreases |s| - i
  {
    var ms := FindFrom(s, i);
    if TokenAt(s, i) {
      var j := WordRunEnd(s, i + 1);
      var rest := FindFrom(s, j);
      assert ms == [Match(i, j)] + rest;
      if p == i {
        assert ms[0].start == p;
      } else {
        assert p >= j by {
          if p < j { WordRunIsWord(s, i + 1, p); }
        }
        FindFromComplete(s, j, p);
        var k :| 0 <= k < |rest| && rest[k].start == p;
        assert ms[k + 1].start == p;
      }
    } else {
      FindFromComplete(s, i + 1, p);
      assert ms == FindFrom(s, i + 1);
    }
  }

  /** A position at or after `i` starts a match if and only if the token pattern can start there. */
  lemma MatchStartsAreTokens(s: string, i: nat, p: nat)
    requires i <= p < |s|
    ensures (exists k :: 0 <= k < |FindFrom(s, i)| && FindFrom(s, i)[k].start == p) <==> TokenAt(s, p)
  {
    FindFromSound(s, i);
    if TokenAt(s, p) {
      FindFromComplete(s, i, p);
    }
  }

  /**
    The reference meaning of a replacement with `repl`, read character by
    character: a token is replaced by `repl` of its groups, anything else is
    copied.
   */
  function Expansion(s: string, i: nat, repl: seq<string> -> string): string
    requires i <= |s|
    decreases |s| - i
  {
    if i == |s| then ""
    else if TokenAt(s, i) then
      repl(Groups(s, Match(i, WordRunEnd(s, i + 1)))) + Expansion(s, WordRunEnd(s, i + 1), repl)
    else [s[i]] + Expansion(s, i + 1, repl)
  }

  /** Text without any token is copied unchanged; in particular "" gives "". */
  lemma {:induction false} ExpansionIdentity(s: string, i: nat, repl: seq<string> -> string)
    requires i <= |s|
    requires forall p :: i <= p < |s| ==> !TokenAt(s, p)
    ensures Expansion(s, i, repl) == s[i..]
    decreases |s| - i
  {
    if i < |s| {
      ExpansionIdentity(s, i + 1, repl);
      assert s[i..] == [s[i]] + s[i + 1..];
    }
  }

  /** Replacing every match by its own text gives the template back. */
  lemma {:induction false} ExpansionWholeMatch(s: string, i: nat)
    requires i <= |s|
    ensures Expansion(s, i, g => if |g| > 0 then g[0] else "") == s[i..]
    decreases |s| - i
  {
    if i < |s| {
      if TokenAt(s, i) {
        var j := WordRunEnd(s, i + 1);
        ExpansionWholeMatch(s, j);
        assert s[i..] == s[i..j] + s[j..];
      } else {
        ExpansionWholeMatch(s, i + 1);
        assert s[i..] == [s[i]] + s[i + 1..];
      }
    }
  }

  /** With no match left in `s[i..]`, the rest is copied verbatim. */
  lemma {:induction false} ExpansionNoMatch(s: string, i: nat, repl: seq<string> -> string)
    requires i <= |s| && FindFrom(s, i) == []
    ensures Expansion(s, i, repl) == s[i..]
    decreases |s| - i
  {
    if i < |s| {
      assert !TokenAt(s, i);
      ExpansionNoMatch(s, i + 1, repl);
      calc {
        Expansion(s, i, repl);
        [s[i]] + Expansion(s, i + 1, repl);
        [s[i]] + s[i + 1..];
        s[i..];
      }
    }
  }

  /** The first match of `s[i..]` is a greedy match, and the matches after it are those found from its end. */
  lemma {:induction false} FindFromFirst(s: string, i: nat, m: Match)
    requires i <= |s| && FindFrom(s, i) != [] && m == FindFrom(s, i)[0]
    ensures i <= m.start && IsMatch(s, m)
    ensures FindFrom(s, m.end) == FindFrom(s, i)[1..]
    decreases |s| - i
  {
    if TokenAt(s, i) {
      assert FindFrom(s, i) == [Match(i, WordRunEnd(s, i + 1))] + FindFrom(s, WordRunEnd(s, i + 1));
    } else {
      assert FindFrom(s, i) == FindFrom(s, i + 1);
      FindFromFirst(s, i + 1, m);
    }
  }

  /**
    With a first match `m` in `s[i..]`, the expansion is the gap before `m`,
    then the replacement of `m`, then the expansion after `m`.
   */
  lemma {:induction false} ExpansionFirstMatch(s: string, i: nat, repl: seq<string> -> string, m: Match)
    requires i <= |s| && FindFrom(s, i) != [] && m == FindFrom(s, i)[0]
    requires i <= m.start && IsMatch(s, m)
    ensures Expansion(s, i, repl) == s[i..m.start] + repl(Groups(s, m)) + Expansion(s, m.end, repl)
    decreases |s| - i
  {
    if TokenAt(s, i) {
      assert FindFrom(s, i)[0] == Match(i, WordRunEnd(s, i + 1));
      assert s[i..i] == [];
    } else {
      assert FindFrom(s, i) == FindFrom(s, i + 1);
      assert i < m.start;
      ExpansionFirstMatch(s, i + 1, repl, m);
      var tail := repl(Groups(s, m)) + Expansion(s, m.end, repl);
      assert Expansion(s, i, repl) == [s[i]] + Expansion(s, i + 1, repl);
      assert [s[i]] + s[i + 1..m.start] == s[i..m.start];
    }
  }

  /** The inner loop of `replaceAllStringSubMatchFunc`: one string per index pair. */
  method SubmatchGroups(s: string, bounds: seq<nat>) returns (groups: seq<string>)
    requires |bounds| % 2 == 0
    requires forall g :: 0 <= g < |bounds| / 2 ==> bounds[2 * g] <= bounds[2 * g + 1] <= |s|
    ensures |groups| == |bounds| / 2
    ensures forall g :: 0 <= g < |groups| ==> groups[g] == s[bounds[2 * g]..bounds[2 * g + 1]]
  {
    groups := [];
    var i := 0;
    while i < |bounds|
      invariant 0 <= i <= |bounds| && i % 2 == 0
      invariant |groups| == i / 2
      invariant forall g :: 0 <= g < |groups| ==> groups[g] == s[bounds[2 * g]..bounds[2 * g + 1]]
    {
      assert bounds[2 * (i / 2)] == bounds[i];
      groups := groups + [s[bounds[i]..bounds[i + 1]]];
      i := i + 2;
    }
  }

  /**
    `replaceAllStringSubMatchFunc`: the gaps between matches are copied in
    order and each match is replaced by `repl` of its groups, once.
   */
  method ReplaceAllStringSubmatchFunc(s: string, repl: seq<string> -> string) returns (result: string)
    ensures result == Expansion(s, 0, repl)
  {
    var matches := FindFrom(s, 0);
    result := "";
    var lastIndex: nat := 0;
    var k := 0;
    while k < |matches|
      invariant 0 <= k <= |matches|
      invariant lastIndex <= |s|
      invariant FindFrom(s, lastIndex) == matches[k..]
      invariant result + Expansion(s, lastIndex, repl) == Expansion(s, 0, repl)
    {
      var v := matches[k];
      assert v == FindFrom(s, lastIndex)[0];
      FindFromFirst(s, lastIndex, v);
      ExpansionFirstMatch(s, lastIndex, repl, v);
      assert matches[k + 1..] == FindFrom(s, lastIndex)[1..];
      var groups := SubmatchGroups(s, SubmatchIndex(s, v));
      assert groups == Groups(s, v);
      var gap := s[lastIndex..v.start];
      var replaced := repl(groups);
      assert Expansion(s, lastIndex, repl) == gap + replaced + Expansion(s, v.end, repl);
      result := result + gap + replaced;
      lastIndex := v.end;
      k := k + 1;
    }
    ExpansionNoMatch(s, lastIndex, repl);
    result := result + s[lastIndex..];
  }

  /** An argument of `expandStr` as far as expansion sees it: its `%v` text, and for a `map[string]any` the `%v` text of each value. */
  datatype Arg = Plain(text: string) | StringMap(text: string, entries: map<string, string>)

  /** The replacement of one token key. */
  function Resolve(key: string, args: seq<Arg>): (r: string)
    ensures IsDigits(key) && DigitsValue(key) < |args| && DigitsValue(key) <= MaxInt64 ==>
      r == args[DigitsValue(key)].text
    ensures IsDigits(key) && |args| <= DigitsValue(key) <= MaxInt64 ==>
      r == "[bad_index:$" + NatToDecimal(DigitsValue(key)) + "]"
    ensures Atoi(key).None? && |args| == 1 && args[0].StringMap? && key in args[0].entries ==>
      r == args[0].entries[key]
    ensures Atoi(key).None? && !(|args| == 1 && args[0].StringMap? && key in args[0].entries) ==>
      r == "[no_key:$" + key + "]"
  {
    match Atoi(key)
    case Some(i) =>
      if i < 0 || i >= |args| then "[bad_index:$" + IntToDecimal(i) + "]" else args[i].text
    case None =>
      if |args| == 1 && args[0].StringMap? && key in args[0].entries then args[0].entries[key]
      else "[no_key:$" + key + "]"
  }

  /** The replacement function `expandStr` passes: it resolves the key group. */
  function Replacer(args: seq<Arg>): seq<string> -> string
  {
    groups => if |groups| == 2 then Resolve(groups[1], args) else ""
  }

  /** `expandStr`: every token of `msg` resolved against `args`. */
  method ExpandStr(msg: string, args: seq<Arg>) returns (r: string)
    ensures r == Expansion(msg, 0, Replacer(args))
  {
    r := ReplaceAllStringSubmatchFunc(msg, Replacer(args));
  }

  /** Text with no token is returned unchanged by `expandStr`, whatever the arguments; "" gives "". */
  lemma ExpandStrIdentity(msg: string, args: seq<Arg>)
    requires forall p :: 0 <= p < |msg| ==> !TokenAt(msg, p)
    ensures Expansion(msg, 0, Replacer(args)) == msg
  {
    ExpansionIdentity(msg, 0, Replacer(args));
  }

  /** Literal text without `$` is copied in front of the expansion of what follows it. */
  lemma {:induction false} ExpansionLiteral(s: string, i: nat, n: nat, repl: seq<string> -> string)
    requires i + n <= |s|
    requires forall k :: i <= k < i + n ==> s[k] != '$'
    ensures Expansion(s, i, repl) == s[i..i + n] + Expansion(s, i + n, repl)
    decreases n
  {
    if n > 0 {
      assert !TokenAt(s, i);
      ExpansionLiteral(s, i + 1, n - 1, repl);
      assert Expansion(s, i, repl) == [s[i]] + Expansion(s, i + 1, repl);
      assert s[i..i + n] == [s[i]] + s[i + 1..i + n];
    }
  }

  /**
    `$key` followed by text that does not continue the key is one token: its
    replacement comes first and the rest is expanded on its own.
   */
  lemma ExpansionToken(s: string, i: nat, key: string, repl: seq<string> -> string)
    requires IsKey(key) && i + 1 + |key| <= |s|
    requires s[i..i + 1 + |key|] == "$" + key
    requires i + 1 + |key| == |s| || !IsWordChar(s[i + 1 + |key|])
    ensures Expansion(s, i, repl) == repl(["$" + key, key]) + Expansion(s, i + 1 + |key|, repl)
  {
    var n := i + 1 + |key|;
    assert forall k :: i + 1 <= k < n ==> s[k] == key[k - i - 1] by {
      forall k | i + 1 <= k < n ensures s[k] == key[k - i - 1] {
        assert s[i..n][k - i] == s[k];
      }
    }
    assert TokenAt(s, i) by {
      assert s[i..n][0] == s[i];
    }
    assert WordRunEnd(s, i + 1) == n by {
      WordRunEndIs(s, i + 1, n);
    }
    assert Groups(s, Match(i, n)) == ["$" + key, key] by {
      assert s[i + 1..n] == s[i..n][1..];
    }
  }
}
