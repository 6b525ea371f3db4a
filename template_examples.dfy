/**
  Short expansions taken from the repository's tests of `expandStr`, proved
  from the general lemmas of the Template module: first the shape of a
  message (which runs are literal text and which are tokens) for any
  replacement function, then the replacements `expandStr` computes.
 */
module TemplateExamples {
  import opened Options
  import opened Strconv
  import opened Template

  /** A word key that does not start with a digit takes the map path. */
  lemma NamedKey(key: string, args: seq<Arg>)
    requires IsKey(key) && !IsDigit(key[0])
    ensures Replacer(args)(["$" + key, key]) == Resolve(key, args)
    ensures Atoi(key).None?
  {
    assert key[0] != '+' && key[0] != '-';
  }

  /**
    Two tokens with nothing between them stay two tokens. The message
    `$lower$UPPER` is given by its two halves: stated as one literal it makes
    the verifier unfold the expansion along the whole string.
   */
  lemma AdjacentTokensShape(s: string, repl: seq<string> -> string)
    requires |s| == 12 && s[..6] == "$lower" && s[6..] == "$UPPER"
    ensures Expansion(s, 0, repl) == repl(["$lower", "lower"]) + repl(["$UPPER", "UPPER"])
  {
    assert s[6..12] == s[6..] && s[0..6] == s[..6] && s[6] == s[6..][0];
    ExpansionToken(s, 6, "UPPER", repl);
    assert Expansion(s, 12, repl) == "";
    ExpansionToken(s, 0, "lower", repl);
  }

  /** The single map argument of the adjacent-token test. */
  function CaseMap(text: string): seq<Arg>
  {
    [StringMap(text, map["lower" := "1", "UPPER" := "two"])]
  }

  /** Each key of `CaseMap` resolves to its own value; the keys differ only in case. */
  lemma CaseMapKeys(text: string)
    ensures Replacer(CaseMap(text))(["$lower", "lower"]) == "1"
    ensures Replacer(CaseMap(text))(["$UPPER", "UPPER"]) == "two"
  {
    NamedKey("lower", CaseMap(text));
    NamedKey("UPPER", CaseMap(text));
  }

  /** Both keys of `$lower$UPPER` (given by its halves, as above) are looked up in the single map argument. */
  lemma AdjacentTokensExample(s: string, text: string)
    requires |s| == 12 && s[..6] == "$lower" && s[6..] == "$UPPER"
    ensures Expansion(s, 0, Replacer(CaseMap(text))) == "1two"
  {
    AdjacentTokensShape(s, Replacer(CaseMap(text)));
    CaseMapKeys(text);
  }

  /** A `$` that is not followed by a word character is copied like any other text. */
  lemma LoneDollarExample(s: string, repl: seq<string> -> string)
    requires s == "50 $ (or $!)"
    ensures Expansion(s, 0, repl) == s
  {
    forall p | 0 <= p < |s|
      ensures !TokenAt(s, p)
    {
    }
    ExpansionIdentity(s, 0, repl);
  }
}
