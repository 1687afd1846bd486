/**
 * The class-name resolver shared by the binding and provides extractors of
 * DeferredProvidersSniff, the quote trimming applied at every capture site,
 * and the fixed lookaheads of the scanner.
 */
module ClassNames {
  import opened Tokens

  /** Methods of the container contract whose first argument is a bound name. */
  const BindingMethods: seq<string> :=
    ["bind", "bindIf", "singleton", "instance", "extend", "bindMethod", "refresh", "rebinding"]

  /** Offset from `public` to the property variable: `public`, whitespace, `$bindings`. */
  const BindingsVariableOffset: nat := 2

  /** Offset from an array key to its `=>`: `Foo`, `::`, `class`, whitespace, `=>`. */
  const DoubleArrowOffset: nat := 4

  /** PHP truthiness of a string: only "" and "0" are false. */
  predicate Truthy(s: string)
  {
    s != "" && s != "0"
  }

  /** Leading `'` characters removed. */
  function TrimLeft(s: string): (r: string)
    ensures |r| <= |s| && r == s[|s| - |r|..]
    ensures r == [] || r[0] != '\''
  {
    if s != [] && s[0] == '\'' then TrimLeft(s[1..]) else s
  }

  /** Trailing `'` characters removed. */
  function TrimRight(s: string): (r: string)
    ensures |r| <= |s| && r == s[..|r|]
    ensures r == [] || r[|r| - 1] != '\''
  {
    if s != [] && s[|s| - 1] == '\'' then TrimRight(s[..|s| - 1]) else s
  }

  /** `trim($s, "'")`: every leading and every trailing `'` removed; what
      remains is a contiguous part of `s` that neither starts nor ends with `'`. */
  function TrimQuotes(s: string): (r: string)
    ensures r == [] || (r[0] != '\'' && r[|r| - 1] != '\'')
    ensures |r| <= |s|
  {
    TrimRight(TrimLeft(s))
  }

  /** `TrimLeft` drops only quotes: everything before what it keeps is `'`. */
  lemma {:induction false} TrimLeftDropsQuotes(s: string)
    ensures forall j :: 0 <= j < |s| - |TrimLeft(s)| ==> s[j] == '\''
  {
    if s != [] && s[0] == '\'' {
      TrimLeftDropsQuotes(s[1..]);
      assert forall j :: 1 <= j < |s| - |TrimLeft(s)| ==> s[j] == s[1..][j - 1];
    }
  }

  /** `TrimRight` drops only quotes: everything after what it keeps is `'`. */
  lemma {:induction false} TrimRightDropsQuotes(s: string)
    ensures forall j :: |TrimRight(s)| <= j < |s| ==> s[j] == '\''
  {
    if s != [] && s[|s| - 1] == '\'' {
      var t := s[..|s| - 1];
      TrimRightDropsQuotes(t);
      assert forall j :: |TrimRight(s)| <= j < |t| ==> s[j] == t[j];
    }
  }

  /** `TrimRight` applied to a suffix `s[a..]` keeps a slice of `s` and
      drops only quotes after it. */
  lemma {:induction false} TrimRightOfSuffix(s: string, a: nat, l: string)
    requires a <= |s| && l == s[a..]
    ensures var r := TrimRight(l);
      && a + |r| <= |s| && r == s[a..a + |r|]
      && (forall j :: a + |r| <= j < |s| ==> s[j] == '\'')
  {
    var r := TrimRight(l);
    TrimRightDropsQuotes(l);
    assert r == l[..|r|];
    forall j | a + |r| <= j < |s|
      ensures s[j] == '\''
    {
      assert s[j] == l[j - a];
    }
  }

  /** `trim($s, "'")` keeps a contiguous part of `s` and drops only quotes:
      the result is `s[a..b]`, every character before `a` and from `b` on is
      `'`, and the kept part neither starts nor ends with `'`. */
  lemma TrimQuotesOnlyQuotes(s: string)
    ensures var r := TrimQuotes(s); var a := |s| - |TrimLeft(s)|;
      && a + |r| <= |s| && r == s[a..a + |r|]
      && (forall j :: 0 <= j < a ==> s[j] == '\'')
      && (forall j :: a + |r| <= j < |s| ==> s[j] == '\'')
  {
    var l := TrimLeft(s);
    TrimLeftDropsQuotes(s);
    TrimRightOfSuffix(s, |s| - |l|, l);
  }

  /** A string with no quote at either end is left as it is. */
  lemma {:induction false} TrimQuotesKeepsBare(s: string)
    requires s == [] || (s[0] != '\'' && s[|s| - 1] != '\'')
    ensures TrimQuotes(s) == s
  {
    assert TrimLeft(s) == s;
    assert TrimRight(s) == s;
  }

  /** A quoted literal loses exactly its two quotes (a string literal's text
      `'App\Foo'` is captured as `App\Foo`). */
  lemma {:induction false} TrimQuotesUnquotes(body: string)
    requires body == [] || (body[0] != '\'' && body[|body| - 1] != '\'')
    ensures TrimQuotes(['\''] + body + ['\'']) == body
  {
    var s := ['\''] + body + ['\''];
    assert s[1..] == body + ['\''];
    if body == [] {
      assert TrimLeft(['\'']) == TrimLeft([]);
    } else {
      var t := body + ['\''];
      assert t[0] == body[0];
      assert TrimLeft(s) == TrimLeft(t) == t;
      assert t[..|t| - 1] == body;
      assert TrimRight(t) == TrimRight(body) == body;
    }
  }

  /** Trimming twice is trimming once. */
  lemma TrimQuotesIdempotent(s: string)
    ensures TrimQuotes(TrimQuotes(s)) == TrimQuotes(s)
  {
    TrimQuotesKeepsBare(TrimQuotes(s));
  }

  /** An identifier immediately followed by `::`: the magic `Foo::class` spelling. */
  predicate IsClassConstant(tokens: seq<Token>, i: nat)
    requires i < |tokens|
  {
    tokens[i].code == String && CodeAt(tokens, i + 1, DoubleColon)
  }

  /** `getClassNameForIndex`: the class name spelled at token `i`, if any.
      An identifier followed by `::` yields the texts of tokens i, i+1 and i+2
      concatenated (the third is not checked to be `class`); a string literal
      yields its raw text, quotes included; anything else yields None. */
  function ClassNameAt(tokens: seq<Token>, i: nat): (r: Option<string>)
    requires i < |tokens|
    ensures r.Some? <==> IsClassConstant(tokens, i) || tokens[i].code == ConstString
    ensures r.Some? ==> tokens[i].content <= r.value
    ensures tokens[i].code == ConstString ==> r == Some(tokens[i].content)
  {
    if IsClassConstant(tokens, i) then
      Some(tokens[i].content + tokens[i + 1].content + ContentAt(tokens, i + 2))
    else if tokens[i].code == ConstString then
      Some(tokens[i].content)
    else
      None
  }

  /** What a capture site stores for token `i`: a truthy resolved name with
      its surrounding quotes trimmed. */
  function CapturedAt(tokens: seq<Token>, i: nat): (r: Option<string>)
    requires i < |tokens|
    ensures r.Some? ==> ClassNameAt(tokens, i).Some? && Truthy(ClassNameAt(tokens, i).value)
    ensures r.Some? ==> r.value == TrimQuotes(ClassNameAt(tokens, i).value)
    ensures ClassNameAt(tokens, i).Some? && Truthy(ClassNameAt(tokens, i).value) ==> r.Some?
  {
    match ClassNameAt(tokens, i)
    case Some(c) => if Truthy(c) then Some(TrimQuotes(c)) else None
    case None => None
  }

  /** `isClassNameArrayIndex`: the token `DoubleArrowOffset` places ahead is a
      `=>`, so the name at `i` is an array key. A missing token is no match. */
  predicate IsClassNameArrayIndex(tokens: seq<Token>, i: nat)
  {
    CodeAt(tokens, i + DoubleArrowOffset, DoubleArrow)
  }

  /** Any identifier `X` followed by `::` and `class` resolves to `X::class`. */
  lemma ClassConstantName(tokens: seq<Token>, i: nat, name: string)
    requires i + 2 < |tokens|
    requires tokens[i] == Token(String, name) && tokens[i + 1] == Token(DoubleColon, "::")
    requires tokens[i + 2] == Token(String, "class")
    ensures ClassNameAt(tokens, i) == Some(name + "::class")
  {
    assert name + "::" + "class" == name + "::class";
  }

  /** The third token is not checked: `Foo :: bar` resolves to `Foo::bar`, and
      a `Foo ::` at the very end resolves to `Foo::`. */
  lemma ThirdTokenUnchecked()
    ensures ClassNameAt([Token(String, "Foo"), Token(DoubleColon, "::"), Token(String, "bar")], 0) == Some("Foo::bar")
    ensures ClassNameAt([Token(String, "Foo"), Token(DoubleColon, "::")], 0) == Some("Foo::")
  {
    assert "Foo" + "::" + "bar" == "Foo::bar";
    assert "Foo" + "::" + "" == "Foo::";
  }
}
