/** `oskar::SettingsKey`: a hierarchical settings key such as
    "foo/bar/key", with a separator character ('/' unless another is
    given). Its tokens are the pieces between separators, its depth is the
    number of separators and its leaf is the last token. */
module SettingsKeys {
  import opened Separated

  const DefaultSeparator: char := '/'

  datatype SettingsKey = SettingsKey(text: string, separator: char)
  {
    /** The key read back as a C string. */
    function ToString(): (s: string)
      ensures s == text
    {
      text
    }

    function Tokens(): (tokens: seq<string>)
      ensures |tokens| >= 1
      ensures forall t :: t in tokens ==> separator !in t
      ensures Join(tokens, separator) == text
    {
      TokensFree(text, separator);
      JoinSplit(text, separator);
      Split(text, separator)
    }

    function Depth(): (d: nat)
      ensures d == |Tokens()| - 1
      ensures d == 0 <==> separator !in text
    {
      TokenCount(text, separator);
      Count(text, separator)
    }

    function Leaf(): (leaf: string)
      ensures separator !in leaf
      ensures Depth() == 0 ==> leaf == text
      ensures Depth() > 0 ==> exists parent :: text == parent + [separator] + leaf
    {
      var tokens := Tokens();
      var leaf := tokens[|tokens| - 1];
      assert leaf in tokens;
      LeafSuffix(tokens, separator);
      leaf
    }
  }

  /** The joined pieces end with the last piece, after a separator when
      there are several. */
  lemma {:induction false} LeafSuffix(parts: seq<string>, sep: char)
    requires |parts| >= 1
    ensures |parts| == 1 ==> Join(parts, sep) == parts[0]
    ensures |parts| > 1 ==>
      Join(parts, sep) == Join(parts[..|parts| - 1], sep) + [sep] + parts[|parts| - 1]
  {
    if |parts| > 2 {
      LeafSuffix(parts[1..], sep);
      assert parts[1..][..|parts| - 2] == parts[..|parts| - 1][1..];
    }
  }

  /** A key is determined by its text and separator, so a key built again
      from the same text and separator is equal to it; and the tokens of a
      key rebuild it. */
  lemma KeyFromTokens(k: SettingsKey)
    ensures k == SettingsKey(Join(k.Tokens(), k.separator), k.separator)
  {
  }

  /** Keys built from separator-free tokens give those tokens back. */
  lemma TokensOfJoin(tokens: seq<string>, sep: char)
    requires |tokens| >= 1 && forall t :: t in tokens ==> sep !in t
    ensures SettingsKey(Join(tokens, sep), sep).Tokens() == tokens
    ensures SettingsKey(Join(tokens, sep), sep).Depth() == |tokens| - 1
    ensures SettingsKey(Join(tokens, sep), sep).Leaf() == tokens[|tokens| - 1]
  {
    SplitJoin(tokens, sep);
  }

  lemma CreateSimple()
    ensures var k := SettingsKey("foo", DefaultSeparator);
      && k.ToString() == "foo" && k == SettingsKey("foo", DefaultSeparator)
      && k.Depth() == 0 && |k.Tokens()| == 1 && k.Leaf() == "foo"
  {
  }

  lemma CreateType1()
    ensures var k := SettingsKey("foo/bar/key", DefaultSeparator);
      && k.ToString() == "foo/bar/key" && k == SettingsKey("foo/bar/key", DefaultSeparator)
      && k.Depth() == 2 && |k.Tokens()| == 3 && k.Leaf() == "key"
  {
    var tokens := ["foo", "bar", "key"];
    assert Join(tokens[2..], '/') == "key";
    assert Join(tokens[1..], '/') == "bar" + ['/'] + "key";
    assert Join(tokens, '/') == "foo/bar/key";
    TokensOfJoin(tokens, '/');
  }

  lemma CreateType2()
    ensures var k := SettingsKey("foo\\bar\\key", '\\');
      && k.ToString() == "foo\\bar\\key" && k == SettingsKey("foo\\bar\\key", '\\')
      && k.Depth() == 2 && |k.Tokens()| == 3 && k.Leaf() == "key"
  {
    var tokens := ["foo", "bar", "key"];
    assert Join(tokens[2..], '\\') == "key";
    assert Join(tokens[1..], '\\') == "bar" + ['\\'] + "key";
    assert Join(tokens, '\\') == "foo\\bar\\key";
    TokensOfJoin(tokens, '\\');
  }

  lemma CreateType3()
    ensures var k := SettingsKey("A:B:C", ':');
      && k.ToString() == "A:B:C" && k == SettingsKey("A:B:C", ':')
      && k.Depth() == 2 && |k.Tokens()| == 3 && k.Leaf() == "C"
  {
    var tokens := ["A", "B", "C"];
    assert Join(tokens[2..], ':') == "C";
    assert Join(tokens[1..], ':') == "B" + [':'] + "C";
    assert Join(tokens, ':') == "A:B:C";
    TokensOfJoin(tokens, ':');
  }
}
