/**
 * Concrete token queues, as they reach the namespace consumer just after the
 * `namespace` keyword, and what the consumer makes of them.
 */
module NamespaceExamples {
  import opened Wrappers
  import opened Tokens
  import opened Contexts
  import opened NamespaceNames
  import opened NamespaceConsumer
  import opened NamespaceConsumerProofs

  const Space: Token := Token(" ", Whitespace)
  const Backslash: Token := Token("\\", NsSeparator)
  const Semicolon: Token := Token(";", Untyped)
  const OpenBrace: Token := Token("{", Untyped)
  const CloseBrace: Token := Token("}", Untyped)
  const ClassKeyword: Token := Token("class", Named("T_CLASS"))

  /**
   * `namespace Foo\Bar; class Collection {}`: the name is `Foo\Bar`, and
   * whatever follows the `;` is left for the namespace body.
   */
  lemma QualifiedNameBeforeSemicolon(
    body: seq<Token>,
    context: Context,
    nested: (Context, ScopeType, seq<Token>) -> Result<ScopeScan, ParseError>
  )
    ensures var ts := [Space, Token("Foo", Identifier), Backslash, Token("Bar", Identifier), Semicolon] + body;
      && CollectName(ts, []) == Success(NameScan(["Foo", "Bar"], body))
      && ConsumeNamespace(ts, context, nested) == EnterNamespace("Foo\\Bar", context, body, nested)
  {
    var name := [Space, Token("Foo", Identifier), Backslash, Token("Bar", Identifier)];
    assert name + [Semicolon] + body
        == [Space, Token("Foo", Identifier), Backslash, Token("Bar", Identifier), Semicolon] + body;
    NamePartsFromIndices(name);
    NameEndsAtTerminator(name, Semicolon, body);
    TerminatedNamespace(name, Semicolon, body, context, nested);
    IdentifiersOfNameTokens(name, Token("Foo", Identifier), Token("Bar", Identifier));
    JoinFooBar();
  }

  /**
   * `namespace dict { class Foo {} }`: a reserved-looking name that reaches
   * the consumer as an identifier is a plain segment.
   */
  lemma ReservedLookingSegment(
    body: seq<Token>,
    context: Context,
    nested: (Context, ScopeType, seq<Token>) -> Result<ScopeScan, ParseError>
  )
    ensures ConsumeNamespace([Space, Token("dict", Identifier), Space, OpenBrace] + body, context, nested)
         == EnterNamespace("dict", context, body, nested)
  {
    var name := [Space, Token("dict", Identifier), Space];
    assert name + [OpenBrace] + body == [Space, Token("dict", Identifier), Space, OpenBrace] + body;
    NamePartsFromIndices(name);
    TerminatedNamespace(name, OpenBrace, body, context, nested);
    assert name == [Space, Token("dict", Identifier)] + [Space];
    IdentifiersAppend([Space, Token("dict", Identifier)], [Space]);
    IdentifiersOfPair(Space, Token("dict", Identifier));
    IdentifiersOfOne(Space);
    assert Join(["dict"]) == "dict";
  }

  /** `namespace { ... }`: the global-namespace block has the empty name. */
  lemma GlobalNamespaceBlock(
    body: seq<Token>,
    context: Context,
    nested: (Context, ScopeType, seq<Token>) -> Result<ScopeScan, ParseError>
  )
    ensures ConsumeNamespace([Space, OpenBrace] + body, context, nested) == EnterNamespace("", context, body, nested)
  {
    assert [Space] + [OpenBrace] + body == [Space, OpenBrace] + body;
    EmptyNameBeforeTerminator([Space], OpenBrace, body, context, nested);
  }

  /** Leading and doubled separators add no segment: `\Foo\\Bar;` reads as `Foo\Bar`. */
  lemma SeparatorsAddNoSegment()
    ensures CollectName([Space, Backslash, Token("Foo", Identifier), Backslash, Backslash,
                         Token("Bar", Identifier), Semicolon], [])
         == Success(NameScan(["Foo", "Bar"], []))
  {
    var name := [Space, Backslash, Token("Foo", Identifier), Backslash, Backslash, Token("Bar", Identifier)];
    assert name + [Semicolon] + [] == [Space, Backslash, Token("Foo", Identifier), Backslash, Backslash,
                                       Token("Bar", Identifier), Semicolon];
    NamePartsFromIndices(name);
    NameEndsAtTerminator(name, Semicolon, []);
    IdentifiersOfSeparatedName(name, Token("Foo", Identifier), Token("Bar", Identifier));
  }

  /** A variable where a segment belongs is fatal, whatever follows it: no namespace is entered. */
  lemma VariableInNameIsFatal(
    tail: seq<Token>,
    context: Context,
    nested: (Context, ScopeType, seq<Token>) -> Result<ScopeScan, ParseError>
  )
    ensures ConsumeNamespace([Space, Token("Foo", Identifier), Token("$x", Named("T_VARIABLE"))] + tail, context, nested)
         == Failure(UnexpectedToken(Token("$x", Named("T_VARIABLE"))))
  {
    var name := [Space, Token("Foo", Identifier)];
    var bad := Token("$x", Named("T_VARIABLE"));
    assert name + [bad] + tail == [Space, Token("Foo", Identifier), bad] + tail;
    NamePartsFromIndices(name);
    UnexpectedTokenIsFatal(name, bad, tail, context, nested);
  }

  /**
   * The queue running out: right after an identifier the loop's
   * remaining-tokens test ends the name; after trailing whitespace the next
   * shift finds nothing.
   */
  lemma NameAtEndOfQueue()
    ensures CollectName([Space, Token("Foo", Identifier)], []) == Success(NameScan(["Foo"], []))
    ensures CollectName([Space, Token("Foo", Identifier), Space], []) == Failure(EndOfTokens)
  {
    assert [Space] + [Token("Foo", Identifier)] == [Space, Token("Foo", Identifier)];
    assert [Space, Token("Foo", Identifier)] + [Space] == [Space, Token("Foo", Identifier), Space];
    NamePartsFromIndices([Space]);
    NamePartsFromIndices([Space, Token("Foo", Identifier)]);
    NameRunsToEndOfQueue([Space], Token("Foo", Identifier));
    NameRunsOutOfTokens([Space, Token("Foo", Identifier)], Space);
    IdentifiersOfPair(Space, Token("Foo", Identifier));
    assert Contribution(Space) + Contribution(Token("Foo", Identifier)) == ["Foo"];
  }

  lemma IdentifiersOfPair(a: Token, b: Token)
    ensures Identifiers([a, b]) == Contribution(a) + Contribution(b)
  {
    assert [a, b] == [a] + [b];
    IdentifiersAppend([a], [b]);
    IdentifiersOfOne(a);
    IdentifiersOfOne(b);
  }

  lemma IdentifiersOfNameTokens(name: seq<Token>, foo: Token, bar: Token)
    requires foo.kind.Identifier? && bar.kind.Identifier?
    requires name == [Space, foo, Backslash, bar]
    ensures Identifiers(name) == [foo.text, bar.text]
  {
    assert name == [Space, foo] + [Backslash, bar];
    IdentifiersAppend([Space, foo], [Backslash, bar]);
    IdentifiersOfPair(Space, foo);
    IdentifiersOfPair(Backslash, bar);
  }

  lemma IdentifiersOfSeparatedName(name: seq<Token>, foo: Token, bar: Token)
    requires foo.kind.Identifier? && bar.kind.Identifier?
    requires name == [Space, Backslash, foo, Backslash, Backslash, bar]
    ensures Identifiers(name) == [foo.text, bar.text]
  {
    var a, b, c := [Space, Backslash], [foo, Backslash], [Backslash, bar];
    assert name == a + b + c;
    IdentifiersAppend(a + b, c);
    IdentifiersAppend(a, b);
    IdentifiersOfPair(Space, Backslash);
    IdentifiersOfPair(foo, Backslash);
    IdentifiersOfPair(Backslash, bar);
  }

  lemma JoinFooBar()
    ensures Join(["Foo", "Bar"]) == "Foo\\Bar"
  {
  }
}
