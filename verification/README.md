# Namespace declarations and scope records of a Hack/PHP definition finder

This project models two pieces of a definition finder for Hack and PHP. The
finder reads a token queue and produces records of every definition it
finds.

- The **namespace consumer** is entered just after the `namespace` keyword.
  It reads the namespace name and joins its segments with `\`. It derives a
  child context that carries the new namespace, and hands the rest of the
  queue to a nested scope consumer that reads the namespace body.
- The **scope record** (`ScannedScope`) aggregates what a file, a namespace
  body or a class-like body declares: twelve ordered sequences, plus the
  header every scanned definition carries. For a scope, that header is
  always the name `__SCOPE__` with no attributes and no docblock. The model
  derives the header from the scope's context (`ScannedScopes.Header`), so
  every scope value, including one a nested consumer returns, carries it.

Modules:

- `Tokens` holds the token queue (`seq<Token>`, a token being text plus
  kind) and the whitespace run dropped by `consumeWhitespace`.
- `Contexts` holds the scan context and the namespace override.
- `ScannedScopes` holds the scope record, its constructor, its getters and
  its static `getType`.
- `NamespaceNames` holds `\`-joining of segments (the `implode`) and its
  inverse split.
- `NamespaceConsumer` holds the name loop, both as a recursive function and
  as a position-based loop. It also holds the hand-off to the nested scope
  consumer and the whole consumer.
- `NamespaceConsumerProofs` holds a loop-free description of the name loop's
  result, proved equal to the loop. The consumer's properties are proved
  from that description.
- `NamespaceExamples` holds concrete queues: two taken from the repository's
  tests and four edge cases of the name loop.

Fatal errors (`invariant_violation`, or a shift from an exhausted queue)
become `Failure(...)` values of a `Result`. No exceptions are modelled.

A name may also end with the queue. After an identifier or separator, the
loop condition `haveTokens()` (NamespaceConsumer.php line 33) is false, so
the loop exits and the consumer goes on with the collected name:
`namespace Foo` at the very end of input is accepted. `CollectName` and
`NameRunsToEndOfQueue` state this.

## Model

| member | source | states |
|---|---|---|
| `Tokens.WhitespaceRun` | src/consumers/NamespaceConsumer.php:19 | `consumeWhitespace` drops exactly the leading run of whitespace tokens: every dropped token is whitespace, and the next token, if any, is not |
| `Contexts.WithNamespace` | src/consumers/NamespaceConsumer.php:39-40 | the child context has the new namespace, and every other field equals the parent's; it equals the parent exactly when the namespace was already that name |
| `ScannedScopes.GetType` | src/definitions/ScannedScope.php:39-41 | a scope reports no definition type |
| `ScannedScopes.NewScope` | src/definitions/ScannedScope.php:16-37 | a constructed scope's header carries the given context, and the scope stores each of the twelve sequences unchanged |
| `ScannedScopes.HeaderIsFixed` | src/definitions/ScannedScope.php:31-36 | every scope's header (`Header`) has the name `__SCOPE__`, no attributes and no docblock |
| `ScannedScopes.FieldsAreIndependent` | src/definitions/ScannedScope.php:43-89 | for any choice of sequences, each getter (`Members`, one case per `get...` method) returns exactly the sequence passed for its own field, never another field's |
| `ScannedScopes.NewScopeInjective` | src/definitions/ScannedScope.php:16-37 | two constructed scopes are equal only if they were built from the same context and the same twelve sequences |
| `NamespaceNames.SplitJoin` | src/consumers/NamespaceConsumer.php:38 | `Join` is the `implode` with `\`; splitting the join of non-empty, separator-free segments gives back exactly those segments, and the joined name has no empty segment |
| `NamespaceNames.JoinSplit` | src/consumers/NamespaceConsumer.php:38 | a name with no empty segment is the `\`-join of its split segments |
| `NamespaceConsumer.CollectName` | src/consumers/NamespaceConsumer.php:17-33 | the name loop only ever adds to the segments collected so far (a successful read keeps them as a prefix) |
| `NamespaceConsumer.ScanNamespaceName` | src/consumers/NamespaceConsumer.php:17-33 | the position-based do-while loop gives the same result as the recursive name loop on every queue |
| `NamespaceConsumer.NameRound` | src/consumers/NamespaceConsumer.php:18-33 | one loop round either ends the read with the loop's own result, or moves strictly forward to a position with tokens left where the rest of the read has the same result |
| `NamespaceConsumer.ShiftToken` | src/consumers/NamespaceConsumer.php:20-32 | the shifted token is dispatched at once: when the round goes on, it moves past exactly that token and has appended its segment if it is an identifier (a separator adds none); any other token ends the round there, with the name read so far and the queue after it when its text is `{` or `;` (`EndsName`, which looks at the text only after the kind checks), and otherwise with the failure naming that token; either way the round agrees with the loop's result |
| `NamespaceConsumer.ConsumeWhitespace` | src/consumers/NamespaceConsumer.php:19 | the position-based whitespace skip lands exactly after the whitespace run at the current position |
| `NamespaceConsumer.EnterNamespace` | src/consumers/NamespaceConsumer.php:39-49 | the namespace record has the given name, and its body is whatever the nested scope consumer reads under the child context (the parent's, with only the namespace replaced) with the `NAMESPACE_SCOPE` kind; the queue continues where that consumer stopped; it succeeds exactly when that consumer does and otherwise carries its error |
| `NamespaceConsumer.ConsumeNamespace` | src/consumers/NamespaceConsumer.php:16-51 | a failed name read fails the consumer with the same error; a successful one always goes on to enter the namespace named by the `\`-join of the collected segments, on the queue left after the name, so the child context carries that name and nothing else new |
| `NamespaceConsumerProofs.CollectNameMatches` | src/consumers/NamespaceConsumer.php:17-33 | for any segments collected before, the loop yields those segments followed by the loop-free description of the rest of the queue |
| `NamespaceConsumerProofs.CollectNameIsExpected` | src/consumers/NamespaceConsumer.php:17-33 | the name loop equals the loop-free description: the name is the identifiers before the first token that is not whitespace, an identifier or a separator; that token must be `{` or `;`; a name running to the end of the queue must end in an identifier or separator |
| `NamespaceConsumerProofs.QueueOnlyMovesForward` | src/consumers/NamespaceConsumer.php:20-27 | after a successful name read, the queue left is a proper suffix of the queue the consumer started with |
| `NamespaceConsumerProofs.NameEndsAtTerminator` | src/consumers/NamespaceConsumer.php:21-27 | after any run of whitespace, identifiers and separators, the first `{` or `;` ends the name: the segments are the identifiers before it, in order, and the queue resumes right after it |
| `NamespaceConsumerProofs.TerminatedNamespace` | src/consumers/NamespaceConsumer.php:26-49 | the namespace entered at that terminator is named by the `\`-join of those identifiers, and its body is read from the queue after the terminator |
| `NamespaceConsumerProofs.EmptyNameBeforeTerminator` | src/consumers/NamespaceConsumer.php:35-40 | a terminator preceded only by whitespace (`namespace { ... }`) enters the global namespace, whose name is empty |
| `NamespaceConsumerProofs.UnexpectedTokenIsFatal` | src/consumers/NamespaceConsumer.php:29-32 | after name parts, a token that is neither a name part nor `{`/`;` makes the whole consumer fail with that token |
| `NamespaceConsumerProofs.NameRunsToEndOfQueue` | src/consumers/NamespaceConsumer.php:21-33 | a queue of name parts whose last token is an identifier or separator is read to its end: the remaining-tokens test stops the loop and every identifier is a segment |
| `NamespaceConsumerProofs.NameRunsOutOfTokens` | src/consumers/NamespaceConsumer.php:18-20 | a queue of name parts ending in whitespace keeps the loop going after it, and the next shift finds no token |
| `NamespaceConsumerProofs.WhitespaceDoesNotAffectName` | src/consumers/NamespaceConsumer.php:19 | inserting a whitespace token before any token changes neither the name read nor the error reported |
| `NamespaceConsumerProofs.RenderIsName` | src/consumers/NamespaceConsumer.php:21-25 | a name written as identifiers with separators between them consists only of tokens the loop passes over without stopping |
| `NamespaceConsumerProofs.RenderIdentifiers` | src/consumers/NamespaceConsumer.php:21-22 | the identifiers of a written name are the segments it was written from, in order |
| `NamespaceConsumerProofs.RoundTrip` | src/consumers/NamespaceConsumer.php:21-38 | writing segments as a name followed by `{` or `;` and reading it back gives the same segments and leaves the queue after the terminator; the namespace entered is their join, and for valid segments splitting that join gives them back |
| `NamespaceConsumerProofs.NamespaceNameHasNoEmptySegments` | src/consumers/NamespaceConsumer.php:24-38 | when every identifier is a valid segment, the joined namespace name has no empty segment, whatever separators (leading, doubled) the source had |
| `NamespaceExamples.QualifiedNameBeforeSemicolon` | tests/NamingTest.php:121-128 | `namespace Foo\Bar;` yields the segments `Foo`, `Bar` and the namespace `Foo\Bar`, with the body starting after the `;` |
| `NamespaceExamples.ReservedLookingSegment` | tests/NamingTest.php:65-71 | `namespace dict { ... }` with `dict` arriving as an identifier enters the namespace `dict` |
| `NamespaceExamples.GlobalNamespaceBlock` | src/consumers/NamespaceConsumer.php:35-38 | `namespace { ... }` enters the global namespace, whose name is empty |
| `NamespaceExamples.SeparatorsAddNoSegment` | src/consumers/NamespaceConsumer.php:24-25 | leading and doubled separators add no segment: `\Foo\\Bar;` reads as `Foo`, `Bar` |
| `NamespaceExamples.VariableInNameIsFatal` | src/consumers/NamespaceConsumer.php:29-32 | a variable token inside a name makes the whole consumer fail with that token, whatever follows it |
| `NamespaceExamples.NameAtEndOfQueue` | src/consumers/NamespaceConsumer.php:33 | a name ending the queue right after an identifier is accepted, and one ending in whitespace fails with end-of-tokens |

## Left out

- The tokenizer is not part of this model. Tokens arrive already classified
  into the kinds the consumer tells apart. The tokenizer gives reserved-looking
  names such as `dict` their own keyword types; the model assumes they reach
  the consumer as identifiers (`T_STRING`) through a remapping that is not
  part of this model. The evidence is the repository's test that such a name
  works as a namespace name (tests/NamingTest.php lines 66-71).
- The nested `ScopeConsumer` is not part of this model. It is a function
  parameter `(Context, ScopeType, queue) -> Result`: the model fixes what it
  is given (child context, `NAMESPACE_SCOPE`, the queue after the name) and
  how its result is used. It does not model what it reads.
- `ScannedNamespaceBuilder` and its `setContents` are reduced to the record
  `ScannedNamespace(name, contents)`. The builder's later `build` step and
  the file parser that collects the records are outside this model.
- The `Consumer` base class is not part of this model. `consumeWhitespace`
  is modelled as dropping the maximal run of whitespace tokens at the head
  of the queue. Comment tokens are not modelled as skippable.
- Shifting from an empty queue is modelled as the fatal error `EndOfTokens`.
  The queue class is not part of this model.
- The message text of `invariant_violation` (`var_export` of the token) is
  not modelled. The error carries the token itself.
- The context is modelled with the fields namespace, aliases, generic types,
  source type and enclosing class name. Only the namespace is read or
  written by the consumer.
- The definitions held by a scope (classes, functions, methods, ...) are
  modelled by their shared header (name, context, attributes, docblock). Their
  kind-specific payloads belong to other records.
- `DefinitionType` is modelled with its class-like variants only. A scope
  reports none of them.
- PHP's `list(...)` destructuring of a shifted pair, and the by-value copy
  of the context shape, are represented by immutable values.
