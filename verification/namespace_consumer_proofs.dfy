/**
 * Properties of the namespace consumer, proved against an independent,
 * non-recursive description of its result: find the first token that cannot
 * belong to a name; the name is the identifiers before it.
 */
module NamespaceConsumerProofs {
  import opened Wrappers
  import opened Tokens
  import opened Contexts
  import opened NamespaceNames
  import opened NamespaceConsumer

  /** A token the name loop passes over without stopping. */
  predicate NamePart(t: Token) {
    t.kind.Identifier? || t.kind.NsSeparator? || t.kind.Whitespace?
  }

  /** A token that ends the name where it stands: neither skipped nor collected. */
  predicate Terminator(t: Token) {
    !NamePart(t) && EndsName(t)
  }

  /** The texts of the identifier tokens of `ts`, in order. */
  function Identifiers(ts: seq<Token>): seq<string> {
    if |ts| == 0 then [] else Contribution(ts[0]) + Identifiers(ts[1..])
  }

  /** The index of the first token that is not a name part, or `|ts|`. */
  function FirstStop(ts: seq<Token>): (k: nat)
    ensures k <= |ts|
    ensures forall j :: 0 <= j < k ==> NamePart(ts[j])
    ensures k < |ts| ==> !NamePart(ts[k])
  {
    if |ts| == 0 || !NamePart(ts[0]) then 0 else 1 + FirstStop(ts[1..])
  }

  /**
   * What the consumer's name loop should yield, stated without the loop.
   * If a token outside the name exists, it is either `{`/`;` (the name is
   * the identifiers before it, the queue resumes after it) or fatal. If the
   * queue holds only name parts, the name runs to the end of the queue when
   * its last token is an identifier or separator; a queue that is empty or
   * ends in whitespace runs out mid-loop.
   */
  function ExpectedName(ts: seq<Token>): Result<NameScan, ParseError> {
    var k := FirstStop(ts);
    if k < |ts| then
      if EndsName(ts[k]) then Success(NameScan(Identifiers(ts[..k]), ts[k + 1..]))
      else Failure(UnexpectedToken(ts[k]))
    else if |ts| > 0 && !ts[|ts| - 1].kind.Whitespace? then Success(NameScan(Identifiers(ts), []))
    else Failure(EndOfTokens)
  }

  /** `r` with the segments `parts` collected before it placed in front. */
  function After(parts: seq<string>, r: Result<NameScan, ParseError>): Result<NameScan, ParseError> {
    match r
    case Success(scan) => Success(NameScan(parts + scan.parts, scan.rest))
    case Failure(e) => Failure(e)
  }

  lemma {:induction false} IdentifiersAppend(a: seq<Token>, b: seq<Token>)
    ensures Identifiers(a + b) == Identifiers(a) + Identifiers(b)
    decreases |a|
  {
    if |a| == 0 {
      assert a + b == b;
    } else {
      assert (a + b)[0] == a[0];
      assert (a + b)[1..] == a[1..] + b;
      IdentifiersAppend(a[1..], b);
    }
  }

  lemma {:induction false} IdentifiersOfWhitespace(a: seq<Token>)
    requires AllWhitespace(a)
    ensures Identifiers(a) == []
    decreases |a|
  {
    if |a| > 0 {
      assert AllWhitespace(a[1..]) by {
        forall j | 0 <= j < |a[1..]| ensures a[1..][j].kind.Whitespace? {
          assert a[1..][j] == a[j + 1];
        }
      }
      IdentifiersOfWhitespace(a[1..]);
    }
  }

  /** FirstStop is determined by its contract: the first non-name-part index. */
  lemma FirstStopIs(ts: seq<Token>, k: nat)
    requires k <= |ts|
    requires forall j :: 0 <= j < k ==> NamePart(ts[j])
    requires k < |ts| ==> !NamePart(ts[k])
    ensures FirstStop(ts) == k
  {
  }

  lemma AfterAfter(p: seq<string>, h: seq<string>, r: Result<NameScan, ParseError>)
    ensures After(p, After(h, r)) == After(p + h, r)
  {
    if r.Success? {
      assert p + (h + r.value.parts) == p + h + r.value.parts;
    }
  }

  /** A leading whitespace token changes nothing in the expected scan. */
  lemma ExpectedAfterWhitespace(ts: seq<Token>)
    requires |ts| > 0 && ts[0].kind.Whitespace?
    ensures ExpectedName(ts) == ExpectedName(ts[1..])
  {
    var rest := ts[1..];
    var k' := FirstStop(rest);
    FirstStopIs(ts, 1 + k');
    assert ts[..1 + k'] == [ts[0]] + rest[..k'];
    assert Identifiers(ts[..1 + k']) == Identifiers(rest[..k']) by {
      assert ([ts[0]] + rest[..k'])[1..] == rest[..k'];
    }
    if k' < |rest| {
      assert ts[1 + k'] == rest[k'];
      assert ts[1 + k' + 1..] == rest[k' + 1..];
    } else if |rest| > 0 {
      assert ts[..1 + k'] == ts && rest[..k'] == rest;
      assert ts[|ts| - 1] == rest[|rest| - 1];
    }
  }

  /** A leading identifier or separator, followed by more tokens, contributes its own identifier. */
  lemma ExpectedAfterNamePart(ts: seq<Token>)
    requires |ts| > 1 && (ts[0].kind.Identifier? || ts[0].kind.NsSeparator?)
    ensures ExpectedName(ts) == After(Contribution(ts[0]), ExpectedName(ts[1..]))
  {
    IdentifiersOfOne(ts[0]);
    var rest := ts[1..];
    var k' := FirstStop(rest);
    FirstStopIs(ts, 1 + k');
    assert ts[..1 + k'] == [ts[0]] + rest[..k'];
    IdentifiersAppend([ts[0]], rest[..k']);
    if k' < |rest| {
      assert ts[1 + k'] == rest[k'];
      assert ts[1 + k' + 1..] == rest[k' + 1..];
    } else {
      assert ts[..1 + k'] == ts && rest[..k'] == rest;
      assert ts[|ts| - 1] == rest[|rest| - 1];
    }
  }

  lemma IdentifiersOfOne(t: Token)
    ensures Identifiers([t]) == Contribution(t)
  {
  }

  /** The loop skips a leading whitespace token. */
  lemma CollectNameWhitespaceHead(ts: seq<Token>, parts: seq<string>)
    requires |ts| > 0 && ts[0].kind.Whitespace?
    ensures CollectName(ts, parts) == CollectName(ts[1..], parts)
  {
  }

  /** A queue holding one identifier or separator: the loop ends with that token. */
  lemma CollectNameLastNamePart(ts: seq<Token>, parts: seq<string>)
    requires |ts| == 1 && (ts[0].kind.Identifier? || ts[0].kind.NsSeparator?)
    ensures CollectName(ts, parts) == After(parts, ExpectedName(ts))
  {
    CollectNameOfLastNamePart(ts, parts);
    ExpectedOfLastNamePart(ts);
  }

  lemma CollectNameOfLastNamePart(ts: seq<Token>, parts: seq<string>)
    requires |ts| == 1 && (ts[0].kind.Identifier? || ts[0].kind.NsSeparator?)
    ensures CollectName(ts, parts) == Success(NameScan(parts + Contribution(ts[0]), []))
  {
  }

  lemma ExpectedOfLastNamePart(ts: seq<Token>)
    requires |ts| == 1 && (ts[0].kind.Identifier? || ts[0].kind.NsSeparator?)
    ensures ExpectedName(ts) == Success(NameScan(Contribution(ts[0]), []))
  {
    var h := Contribution(ts[0]);
    FirstStopIs(ts, 1);
    assert ts[1..] == [];
    assert Identifiers(ts) == h + Identifiers([]);
    assert h + [] == h;
  }

  /** One round on a leading identifier or separator, given the claim for the rest. */
  lemma CollectNameNamePartHead(ts: seq<Token>, parts: seq<string>)
    requires |ts| > 1 && (ts[0].kind.Identifier? || ts[0].kind.NsSeparator?)
    requires CollectName(ts[1..], parts + Contribution(ts[0]))
             == After(parts + Contribution(ts[0]), ExpectedName(ts[1..]))
    ensures CollectName(ts, parts) == After(parts, ExpectedName(ts))
  {
    var h := Contribution(ts[0]);
    assert WhitespaceRun(ts) == 0;
    if ts[0].kind.Identifier? {
      assert CollectName(ts, parts) == CollectName(ts[1..], parts + h);
    } else {
      assert parts + h == parts;
      assert CollectName(ts, parts) == CollectName(ts[1..], parts);
    }
    ExpectedAfterNamePart(ts);
    AfterAfter(parts, h, ExpectedName(ts[1..]));
  }

  /** A leading token outside the name ends the read at once. */
  lemma CollectNameStopHead(ts: seq<Token>, parts: seq<string>)
    requires |ts| > 0 && !NamePart(ts[0])
    ensures CollectName(ts, parts) == After(parts, ExpectedName(ts))
  {
    assert WhitespaceRun(ts) == 0;
    FirstStopIs(ts, 0);
    assert Identifiers(ts[..0]) == [];
    assert parts + [] == parts;
  }

  /**
   * The consumer's loop agrees with the loop-free description on every
   * queue, whatever segments were collected before.
   */
  lemma {:induction false} CollectNameMatches(ts: seq<Token>, parts: seq<string>)
    ensures CollectName(ts, parts) == After(parts, ExpectedName(ts))
    decreases |ts|
  {
    if |ts| == 0 {
    } else if ts[0].kind.Whitespace? {
      CollectNameWhitespaceHead(ts, parts);
      ExpectedAfterWhitespace(ts);
      CollectNameMatches(ts[1..], parts);
    } else if ts[0].kind.Identifier? || ts[0].kind.NsSeparator? {
      if |ts| > 1 {
        CollectNameMatches(ts[1..], parts + Contribution(ts[0]));
        CollectNameNamePartHead(ts, parts);
      } else {
        CollectNameLastNamePart(ts, parts);
      }
    } else {
      CollectNameStopHead(ts, parts);
    }
  }

  /** From an empty start, the name loop yields exactly the expected scan. */
  lemma CollectNameIsExpected(ts: seq<Token>)
    ensures CollectName(ts, []) == ExpectedName(ts)
  {
    CollectNameMatches(ts, []);
    match ExpectedName(ts)
    case Success(scan) => assert [] + scan.parts == scan.parts;
    case Failure(_) =>
  }

  /**
   * The queue only moves forward: after a successful name read, the queue
   * left over is a proper suffix of the one the consumer started with.
   */
  lemma QueueOnlyMovesForward(ts: seq<Token>)
    ensures CollectName(ts, []).Success? ==>
      var rest := CollectName(ts, []).value.rest;
      |rest| < |ts| && rest == ts[|ts| - |rest|..]
  {
    CollectNameIsExpected(ts);
  }

  /** Every token of `ts` is one the name loop passes over (whitespace, identifier or separator). */
  predicate NameParts(ts: seq<Token>) {
    |ts| == 0 || (NamePart(ts[0]) && NameParts(ts[1..]))
  }

  lemma {:induction false} NamePartsEverywhere(ts: seq<Token>)
    requires NameParts(ts)
    ensures forall j :: 0 <= j < |ts| ==> NamePart(ts[j])
    decreases |ts|
  {
    if |ts| > 0 {
      NamePartsEverywhere(ts[1..]);
      forall j | 1 <= j < |ts| ensures NamePart(ts[j]) {
        assert ts[j] == ts[1..][j - 1];
      }
    }
  }

  lemma {:induction false} NamePartsFromIndices(ts: seq<Token>)
    requires forall j :: 0 <= j < |ts| ==> NamePart(ts[j])
    ensures NameParts(ts)
    decreases |ts|
  {
    if |ts| > 0 {
      forall j | 0 <= j < |ts[1..]| ensures NamePart(ts[1..][j]) {
        assert ts[1..][j] == ts[j + 1];
      }
      NamePartsFromIndices(ts[1..]);
    }
  }

  /** The queue `name + [t] + rest` read through the loop-free description, `t` the first token outside the name. */
  lemma ExpectedAtToken(name: seq<Token>, t: Token, rest: seq<Token>)
    requires NameParts(name) && !NamePart(t)
    ensures CollectName(name + [t] + rest, [])
         == if EndsName(t) then Success(NameScan(Identifiers(name), rest)) else Failure(UnexpectedToken(t))
  {
    var ts := name + [t] + rest;
    var k := |name|;
    assert ts[..k] == name && ts[k] == t && ts[k + 1..] == rest;
    NamePartsEverywhere(name);
    forall j | 0 <= j < k ensures NamePart(ts[j]) {
      assert ts[j] == name[j];
    }
    FirstStopIs(ts, k);
    CollectNameIsExpected(ts);
  }

  /**
   * The name ends at the first `{` or `;` after name parts: the segments are
   * the identifiers before it, and the terminator is consumed so that the
   * queue resumes exactly after it.
   */
  lemma NameEndsAtTerminator(name: seq<Token>, terminator: Token, rest: seq<Token>)
    requires NameParts(name) && Terminator(terminator)
    ensures CollectName(name + [terminator] + rest, []) == Success(NameScan(Identifiers(name), rest))
  {
    ExpectedAtToken(name, terminator, rest);
  }

  /** The namespace entered at a terminator is named by the `\`-join of the identifiers before it. */
  lemma TerminatedNamespace(
    name: seq<Token>,
    terminator: Token,
    rest: seq<Token>,
    context: Context,
    nested: (Context, ScopeType, seq<Token>) -> Result<ScopeScan, ParseError>
  )
    requires NameParts(name) && Terminator(terminator)
    ensures ConsumeNamespace(name + [terminator] + rest, context, nested)
         == EnterNamespace(Join(Identifiers(name)), context, rest, nested)
  {
    NameEndsAtTerminator(name, terminator, rest);
  }

  /** A terminator after whitespace only (`namespace { ... }`): the global namespace, named "". */
  lemma EmptyNameBeforeTerminator(
    name: seq<Token>,
    terminator: Token,
    rest: seq<Token>,
    context: Context,
    nested: (Context, ScopeType, seq<Token>) -> Result<ScopeScan, ParseError>
  )
    requires AllWhitespace(name) && Terminator(terminator)
    ensures ConsumeNamespace(name + [terminator] + rest, context, nested)
         == EnterNamespace("", context, rest, nested)
  {
    AllWhitespaceNameParts(name);
    TerminatedNamespace(name, terminator, rest, context, nested);
    IdentifiersOfWhitespace(name);
  }

  lemma {:induction false} AllWhitespaceNameParts(ts: seq<Token>)
    requires AllWhitespace(ts)
    ensures NameParts(ts)
    decreases |ts|
  {
    if |ts| > 0 {
      assert AllWhitespace(ts[1..]) by {
        forall j | 0 <= j < |ts[1..]| ensures ts[1..][j].kind.Whitespace? {
          assert ts[1..][j] == ts[j + 1];
        }
      }
      AllWhitespaceNameParts(ts[1..]);
    }
  }

  /** A token that is neither a name part nor `{`/`;` aborts the consumer: no namespace. */
  lemma UnexpectedTokenIsFatal(
    name: seq<Token>,
    bad: Token,
    rest: seq<Token>,
    context: Context,
    nested: (Context, ScopeType, seq<Token>) -> Result<ScopeScan, ParseError>
  )
    requires NameParts(name) && !NamePart(bad) && !EndsName(bad)
    ensures ConsumeNamespace(name + [bad] + rest, context, nested) == Failure(UnexpectedToken(bad))
  {
    ExpectedAtToken(name, bad, rest);
  }

  /**
   * A queue of name parts ending in an identifier or separator: the loop's
   * remaining-tokens test ends the read, and the whole queue is the name.
   */
  lemma NameRunsToEndOfQueue(name: seq<Token>, last: Token)
    requires NameParts(name) && (last.kind.Identifier? || last.kind.NsSeparator?)
    ensures CollectName(name + [last], []) == Success(NameScan(Identifiers(name + [last]), []))
  {
    var ts := name + [last];
    NamePartsEverywhere(name);
    forall j | 0 <= j < |ts| ensures NamePart(ts[j]) {
      if j < |name| {
        assert ts[j] == name[j];
      }
    }
    FirstStopIs(ts, |ts|);
    CollectNameIsExpected(ts);
  }

  /**
   * A queue of name parts ending in whitespace: the loop goes on after it,
   * and the next shift finds no token.
   */
  lemma NameRunsOutOfTokens(name: seq<Token>, last: Token)
    requires NameParts(name) && last.kind.Whitespace?
    ensures CollectName(name + [last], []) == Failure(EndOfTokens)
  {
    var ts := name + [last];
    NamePartsEverywhere(name);
    forall j | 0 <= j < |ts| ensures NamePart(ts[j]) {
      if j < |name| {
        assert ts[j] == name[j];
      }
    }
    FirstStopIs(ts, |ts|);
    CollectNameIsExpected(ts);
  }

  /** The result of a name read with the queue position left out. */
  function NameOutcome(r: Result<NameScan, ParseError>): Result<seq<string>, ParseError> {
    match r
    case Success(scan) => Success(scan.parts)
    case Failure(e) => Failure(e)
  }

  /**
   * A whitespace token placed before any token changes neither the name nor
   * whether the read succeeds or which error it reports.
   */
  lemma {:induction false} WhitespaceDoesNotAffectName(
    a: seq<Token>, w: Token, b: seq<Token>, parts: seq<string>
  )
    requires w.kind.Whitespace? && |b| > 0
    ensures NameOutcome(CollectName(a + [w] + b, parts)) == NameOutcome(CollectName(a + b, parts))
    decreases |a|
  {
    var x, y := a + [w] + b, a + b;
    if |a| == 0 {
      assert x == [w] + b && y == b;
      CollectNameWhitespaceHead(x, parts);
      assert x[1..] == b;
    } else {
      assert x[0] == a[0] && y[0] == a[0];
      assert x[1..] == a[1..] + [w] + b;
      assert y[1..] == a[1..] + b;
      var t := a[0];
      if t.kind.Whitespace? {
        CollectNameWhitespaceHead(x, parts);
        CollectNameWhitespaceHead(y, parts);
        WhitespaceDoesNotAffectName(a[1..], w, b, parts);
      } else {
        assert WhitespaceRun(x) == 0 && WhitespaceRun(y) == 0;
        if t.kind.Identifier? || t.kind.NsSeparator? {
          var parts' := parts + Contribution(t);
          assert CollectName(x, parts) == CollectName(x[1..], parts');
          assert CollectName(y, parts) == CollectName(y[1..], parts');
          WhitespaceDoesNotAffectName(a[1..], w, b, parts');
        }
      }
    }
  }

  /** The tokens of a written name: identifiers with a separator between neighbours. */
  function Render(parts: seq<string>): seq<Token> {
    if |parts| == 0 then []
    else if |parts| == 1 then [Token(parts[0], Identifier)]
    else [Token(parts[0], Identifier), Token([Separator], NsSeparator)] + Render(parts[1..])
  }

  /** A rendered name consists of name parts only. */
  lemma {:induction false} RenderIsName(parts: seq<string>)
    ensures NameParts(Render(parts))
    decreases |parts|
  {
    if |parts| > 1 {
      RenderIsName(parts[1..]);
      var ts := Render(parts);
      assert ts[1..][1..] == Render(parts[1..]);
    }
  }

  /** The identifiers of a rendered name are the segments it was rendered from. */
  lemma {:induction false} RenderIdentifiers(parts: seq<string>)
    ensures Identifiers(Render(parts)) == parts
    decreases |parts|
  {
    if |parts| > 1 {
      var head := [Token(parts[0], Identifier), Token([Separator], NsSeparator)];
      RenderIdentifiers(parts[1..]);
      IdentifiersAppend(head, Render(parts[1..]));
      assert Identifiers(head) == [parts[0]] by {
        assert head[1..][1..] == [];
      }
      assert parts == [parts[0]] + parts[1..];
    }
  }

  /**
   * Round trip: write segments as a name followed by `{` or `;`, and the
   * consumer reads back exactly those segments, enters the namespace named
   * by their `\`-join and hands the tokens after the terminator to the body;
   * for identifier-like segments, splitting that name gives them back.
   */
  lemma RoundTrip(
    parts: seq<string>,
    terminator: Token,
    tail: seq<Token>,
    context: Context,
    nested: (Context, ScopeType, seq<Token>) -> Result<ScopeScan, ParseError>
  )
    requires Terminator(terminator)
    ensures CollectName(Render(parts) + [terminator] + tail, []) == Success(NameScan(parts, tail))
    ensures ConsumeNamespace(Render(parts) + [terminator] + tail, context, nested)
         == EnterNamespace(Join(parts), context, tail, nested)
    ensures ValidSegments(parts) ==> Split(Join(parts)) == parts
  {
    RenderIsName(parts);
    RenderIdentifiers(parts);
    NameEndsAtTerminator(Render(parts), terminator, tail);
    TerminatedNamespace(Render(parts), terminator, tail, context, nested);
    if ValidSegments(parts) {
      SplitJoin(parts);
    }
  }

  /** Identifier tokens whose texts are usable segments. */
  predicate WellFormedIdentifiers(ts: seq<Token>) {
    forall j :: 0 <= j < |ts| && ts[j].kind.Identifier? ==> ValidSegment(ts[j].text)
  }

  lemma {:induction false} IdentifiersAreSegments(ts: seq<Token>)
    requires WellFormedIdentifiers(ts)
    ensures ValidSegments(Identifiers(ts))
    decreases |ts|
  {
    if |ts| > 0 {
      assert WellFormedIdentifiers(ts[1..]) by {
        forall j | 0 <= j < |ts[1..]| && ts[1..][j].kind.Identifier?
          ensures ValidSegment(ts[1..][j].text)
        {
          assert ts[1..][j] == ts[j + 1];
        }
      }
      IdentifiersAreSegments(ts[1..]);
    }
  }

  /**
   * Separators only delimit: they add no segment, so leading, trailing or
   * repeated separators never put an empty segment into a namespace name.
   */
  lemma NamespaceNameHasNoEmptySegments(
    ts: seq<Token>,
    context: Context,
    nested: (Context, ScopeType, seq<Token>) -> Result<ScopeScan, ParseError>
  )
    requires WellFormedIdentifiers(ts)
    requires ConsumeNamespace(ts, context, nested).Success?
    ensures var name := ConsumeNamespace(ts, context, nested).value.namespace.name;
      && NoEmptySegments(name)
      && Split(name) == CollectName(ts, []).value.parts
  {
    CollectNameIsExpected(ts);
    var k := FirstStop(ts);
    if k < |ts| {
      assert WellFormedIdentifiers(ts[..k]) by {
        forall j | 0 <= j < k && ts[..k][j].kind.Identifier? ensures ValidSegment(ts[..k][j].text) {
          assert ts[..k][j] == ts[j];
        }
      }
      IdentifiersAreSegments(ts[..k]);
    } else {
      IdentifiersAreSegments(ts);
    }
    SplitJoin(CollectName(ts, []).value.parts);
  }
}
