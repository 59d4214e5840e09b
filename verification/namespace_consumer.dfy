/**
 * The namespace consumer, entered just after the `namespace` keyword. It
 * collects the segments of the namespace name up to the first `{` or `;`,
 * joins them, derives the child context that carries the new namespace and
 * hands the remaining tokens to a nested scope consumer.
 *
 * The queue is a `seq<Token>`; shifting a token continues with the suffix.
 * Shifting from an empty queue is modelled as the fatal error `EndOfTokens`.
 */
module NamespaceConsumer {
  import opened Wrappers
  import opened Tokens
  import opened Contexts
  import opened ScannedScopes
  import opened NamespaceNames

  datatype ParseError =
    | UnexpectedToken(token: Token)  // a token no grammar alternative accepts here
    | EndOfTokens                    // a shift from an exhausted queue

  /** The collected name segments and the queue left after the name. */
  datatype NameScan = NameScan(parts: seq<string>, rest: seq<Token>)

  /** The kind of scope a nested scope consumer is asked to read. */
  datatype ScopeType = FileScope | NamespaceScope | ClassScope

  /** What a nested scope consumer yields: the scope and the queue it leaves. */
  datatype ScopeScan = ScopeScan(scope: ScannedScope, rest: seq<Token>)

  /** A namespace record: its (possibly empty) name and the scope of its body. */
  datatype ScannedNamespace = ScannedNamespace(name: string, contents: ScannedScope)

  /** The namespace consumer's product and the context its body was read with. */
  datatype NamespaceScan = NamespaceScan(
    namespace: ScannedNamespace,
    context: Context,
    rest: seq<Token>
  )

  /** The token that ends the name: matched on its text, after the kind tests. */
  predicate EndsName(t: Token) {
    !t.kind.Identifier? && !t.kind.NsSeparator? && (t.text == "{" || t.text == ";")
  }

  /**
   * The do-while loop of the consumer, with `parts` collected so far. Each
   * round skips whitespace and shifts one token: an identifier adds its text,
   * a separator adds nothing, `{` or `;` ends the name (and is consumed), any
   * other token is fatal. After an identifier or separator the loop goes on
   * only while the queue still has tokens; once it is empty, the name so far
   * is the result.
   */
  function CollectName(ts: seq<Token>, parts: seq<string>): (r: Result<NameScan, ParseError>)
    ensures r.Success? ==> parts <= r.value.parts
    decreases |ts|
  {
    var n := WhitespaceRun(ts);
    if n == |ts| then Failure(EndOfTokens)
    else
      var t, rest := ts[n], ts[n + 1..];
      if t.kind.Identifier? || t.kind.NsSeparator? then
        var parts' := parts + Contribution(t);
        if |rest| == 0 then Success(NameScan(parts', []))
        else CollectName(rest, parts')
      else if EndsName(t) then Success(NameScan(parts, rest))
      else Failure(UnexpectedToken(t))
  }

  /** What one shifted name part adds to the segments: an identifier its text, a separator nothing. */
  function Contribution(t: Token): seq<string> {
    if t.kind.Identifier? then [t.text] else []
  }

  /**
   * The same loop written over a queue position, as the consumer runs it:
   * rounds are repeated until one of them ends the read.
   */
  method ScanNamespaceName(tokens: seq<Token>) returns (r: Result<NameScan, ParseError>)
    ensures r == CollectName(tokens, [])
  {
    var parts: seq<string> := [];
    var pos := 0;
    assert tokens[0..] == tokens;
    while true
      invariant pos <= |tokens|
      invariant CollectName(tokens[pos..], parts) == CollectName(tokens, [])
      decreases |tokens| - pos
    {
      var stop;
      pos, parts, stop := NameRound(tokens, pos, parts);
      if stop.Some? {
        return stop.value;
      }
    }
  }

  /**
   * One round of the loop body at `pos`: skip whitespace, then shift a token
   * and dispatch on it. Either the round ends the read with its result, or
   * the loop goes on at a later position, with tokens left, reading the same
   * name.
   */
  method NameRound(tokens: seq<Token>, pos: nat, parts: seq<string>)
    returns (next: nat, parts': seq<string>, stop: Option<Result<NameScan, ParseError>>)
    requires pos <= |tokens|
    ensures stop.Some? ==> stop.value == CollectName(tokens[pos..], parts)
    ensures stop.None? ==> pos < next < |tokens|
    ensures stop.None? ==> CollectName(tokens[next..], parts') == CollectName(tokens[pos..], parts)
  {
    next := ConsumeWhitespace(tokens, pos);
    CollectNameSkipsFrom(tokens, pos, next, parts);
    if next == |tokens| {
      return next, parts, Some(Failure(EndOfTokens));
    }
    next, parts', stop := ShiftToken(tokens, next, parts);
  }

  /**
   * The shift and dispatch of one round, at a non-whitespace token: an
   * identifier or separator is collected and the loop goes on while tokens
   * remain; `{` or `;` ends the name; anything else is fatal.
   */
  method ShiftToken(tokens: seq<Token>, at: nat, parts: seq<string>)
    returns (next: nat, parts': seq<string>, stop: Option<Result<NameScan, ParseError>>)
    requires at < |tokens| && !tokens[at].kind.Whitespace?
    ensures stop.Some? ==> stop.value == CollectName(tokens[at..], parts)
    ensures stop.None? ==> at < next < |tokens|
    ensures stop.None? ==> CollectName(tokens[next..], parts') == CollectName(tokens[at..], parts)
    ensures stop.None? ==> next == at + 1 && parts' == parts + Contribution(tokens[at])
    ensures !tokens[at].kind.Identifier? && !tokens[at].kind.NsSeparator? ==>
              stop == Some(if EndsName(tokens[at]) then Success(NameScan(parts, tokens[at + 1..]))
                           else Failure(UnexpectedToken(tokens[at])))
  {
    var t := tokens[at];
    next := at + 1;
    parts' := parts;
    if t.kind.Identifier? || t.kind.NsSeparator? {
      CollectNameShiftNamePart(tokens, at, parts);
      if t.kind.Identifier? {
        parts' := parts + [t.text];
      } else {
        assert parts + [] == parts;
      }
      stop := if next == |tokens| then Some(Success(NameScan(parts', []))) else None;
    } else {
      CollectNameShiftStop(tokens, at, parts);
      stop := if EndsName(t) then Some(Success(NameScan(parts, tokens[next..])))
              else Some(Failure(UnexpectedToken(t)));
    }
  }

  /** `consumeWhitespace`: the position after the run of whitespace tokens at `pos`. */
  method ConsumeWhitespace(tokens: seq<Token>, pos: nat) returns (next: nat)
    requires pos <= |tokens|
    ensures next == pos + WhitespaceRun(tokens[pos..])
  {
    next := pos;
    while next < |tokens| && tokens[next].kind.Whitespace?
      invariant pos <= next <= |tokens|
      invariant WhitespaceRun(tokens[pos..]) == next - pos + WhitespaceRun(tokens[next..])
    {
      assert tokens[next..][1..] == tokens[next + 1..];
      next := next + 1;
    }
  }

  /** The name loop reads the queue from its first non-whitespace token. */
  lemma CollectNameSkipsWhitespace(ts: seq<Token>, parts: seq<string>)
    ensures CollectName(ts, parts) == CollectName(ts[WhitespaceRun(ts)..], parts)
  {
  }

  /** `CollectNameSkipsWhitespace` for the queue from position `pos` on, `next` past its whitespace. */
  lemma CollectNameSkipsFrom(tokens: seq<Token>, pos: nat, next: nat, parts: seq<string>)
    requires pos <= |tokens| && next == pos + WhitespaceRun(tokens[pos..])
    ensures next == |tokens| ==> CollectName(tokens[pos..], parts) == Failure(EndOfTokens)
    ensures next < |tokens| ==> !tokens[next].kind.Whitespace?
    ensures next < |tokens| ==> CollectName(tokens[pos..], parts) == CollectName(tokens[next..], parts)
  {
  }

  /** A round that shifts the identifier or separator at `at`: stop if the queue is now empty. */
  lemma CollectNameShiftNamePart(tokens: seq<Token>, at: nat, parts: seq<string>)
    requires at < |tokens| && (tokens[at].kind.Identifier? || tokens[at].kind.NsSeparator?)
    ensures CollectName(tokens[at..], parts)
         == if at + 1 == |tokens| then Success(NameScan(parts + Contribution(tokens[at]), []))
            else CollectName(tokens[at + 1..], parts + Contribution(tokens[at]))
  {
  }

  /** A round that shifts any other token at `at`: the name ends at `{`/`;`, otherwise the read fails. */
  lemma CollectNameShiftStop(tokens: seq<Token>, at: nat, parts: seq<string>)
    requires at < |tokens| && !tokens[at].kind.Whitespace?
    requires !tokens[at].kind.Identifier? && !tokens[at].kind.NsSeparator?
    ensures CollectName(tokens[at..], parts)
         == if EndsName(tokens[at]) then Success(NameScan(parts, tokens[at + 1..]))
            else Failure(UnexpectedToken(tokens[at]))
  {
  }

  /**
   * Entering a namespace named `ns`: the child context is the parent's with
   * only the namespace replaced, and the nested scope consumer reads the
   * namespace body from `rest` with that context. The queue is shared, so
   * the consumer leaves it where the nested scope consumer stopped.
   */
  function EnterNamespace(
    ns: string,
    context: Context,
    rest: seq<Token>,
    nested: (Context, ScopeType, seq<Token>) -> Result<ScopeScan, ParseError>
  ): (r: Result<NamespaceScan, ParseError>)
    ensures r.Success? ==> r.value.namespace.name == ns && r.value.context.namespace == ns
    ensures r.Success? ==> SameExceptNamespace(context, r.value.context)
    ensures r.Success? <==> nested(WithNamespace(context, ns), NamespaceScope, rest).Success?
    ensures r.Success? ==> r.value.namespace.contents
                            == nested(WithNamespace(context, ns), NamespaceScope, rest).value.scope
    ensures r.Success? ==> r.value.context == WithNamespace(context, ns)
    ensures r.Success? ==> r.value.rest == nested(WithNamespace(context, ns), NamespaceScope, rest).value.rest
    ensures r.Failure? ==> r.error == nested(WithNamespace(context, ns), NamespaceScope, rest).error
  {
    var inner := WithNamespace(context, ns);
    match nested(inner, NamespaceScope, rest)
    case Failure(e) => Failure(e)
    case Success(body) => Success(NamespaceScan(ScannedNamespace(ns, body.scope), inner, body.rest))
  }

  /**
   * The consumer: read the name, join its segments with `\`, then enter the
   * namespace. A failing name read produces no namespace and carries its error.
   */
  function ConsumeNamespace(
    ts: seq<Token>,
    context: Context,
    nested: (Context, ScopeType, seq<Token>) -> Result<ScopeScan, ParseError>
  ): (r: Result<NamespaceScan, ParseError>)
    ensures CollectName(ts, []).Failure? ==> r == Failure(CollectName(ts, []).error)
    ensures r.Success? ==> CollectName(ts, []).Success?
    ensures CollectName(ts, []).Success? ==>
              r == EnterNamespace(Join(CollectName(ts, []).value.parts), context, CollectName(ts, []).value.rest, nested)
    ensures r.Success? ==> r.value.namespace.name == Join(CollectName(ts, []).value.parts)
    ensures r.Success? ==> r.value.context.namespace == r.value.namespace.name
    ensures r.Success? ==> SameExceptNamespace(context, r.value.context)
  {
    match CollectName(ts, [])
    case Failure(e) => Failure(e)
    case Success(scan) => EnterNamespace(Join(scan.parts), context, scan.rest, nested)
  }
}
