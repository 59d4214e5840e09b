/**
 * The scan context every definition records and every nested consumer
 * receives. In the scanner it is a shape copied by value; here it is an
 * immutable record, so a parent's context can never be changed by a child.
 */
module Contexts {
  import opened Wrappers

  /** The dialect of the source unit: `<?php` (legacy) or `<?hh` (strict). */
  datatype SourceType = PhpSource | HackSource

  datatype Context = Context(
    namespace: string,               // active namespace, "" for the global one
    aliases: map<string, string>,    // `use` imports: alias -> qualified name
    genericTypes: set<string>,       // generic parameters visible from enclosing declarations
    sourceType: SourceType,
    className: Option<string>        // enclosing class-like, for `this`
  )

  /** Every field of `a` and `b` other than the namespace agrees. */
  predicate SameExceptNamespace(a: Context, b: Context) {
    && a.aliases == b.aliases
    && a.genericTypes == b.genericTypes
    && a.sourceType == b.sourceType
    && a.className == b.className
  }

  /**
   * The copy of `c` whose namespace entry is overwritten with `ns`
   * (the consumer assigns the namespace entry of its own copy of the context).
   */
  function WithNamespace(c: Context, ns: string): (r: Context)
    ensures r.namespace == ns
    ensures SameExceptNamespace(c, r)
    ensures r == c <==> c.namespace == ns
  {
    c.(namespace := ns)
  }
}
