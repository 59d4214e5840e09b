/**
 * The scope record: the aggregate of every definition declared directly in a
 * file top level, a namespace body or a class-like body. It is an immutable
 * value: twelve ordered sequences fixed at construction, plus the context it
 * was scanned in. The header every scanned definition carries is derived from
 * that context, so no scope value can carry a header other than the scope's.
 */
module ScannedScopes {
  import opened Wrappers
  import opened Contexts

  /**
   * The header shared by every scanned definition: name, the context it was
   * found in, its attribute map (name -> literal arguments) and its docblock.
   * The kind-specific payloads (parameters, typehints, members) are not part
   * of this model, so a definition in a scope is represented by its header.
   */
  datatype ScannedBase = ScannedBase(
    name: string,
    context: Context,
    attributes: map<string, seq<string>>,
    docComment: Option<string>
  )

  /** A parsed type reference: written name, generic arguments, nullability. */
  datatype ScannedTypehint = ScannedTypehint(
    typeName: string,
    typeText: string,
    generics: seq<ScannedTypehint>,
    nullable: bool
  )

  /** The definition kinds that report a type: the class-like variants. */
  datatype DefinitionType = ClassDef | InterfaceDef | TraitDef

  /** The fixed name every scope reports. */
  const ScopeName: string := "__SCOPE__"

  datatype ScannedScope = ScannedScope(
    context: Context,
    classes: seq<ScannedBase>,
    interfaces: seq<ScannedBase>,
    traits: seq<ScannedBase>,
    functions: seq<ScannedBase>,
    methods: seq<ScannedBase>,
    usedTraits: seq<ScannedTypehint>,
    properties: seq<ScannedBase>,
    constants: seq<ScannedBase>,
    typeConstants: seq<ScannedBase>,
    enums: seq<ScannedBase>,
    types: seq<ScannedBase>,
    newtypes: seq<ScannedBase>
  )

  /** The scope's (static) `getType`: a scope is not itself a definition kind. */
  function GetType(): (t: Option<DefinitionType>)
    ensures !t.Some?
  {
    None
  }

  /** The header a scope reports (its `ScannedBase` part): fixed name, no attributes, no docblock. */
  function Header(s: ScannedScope): ScannedBase {
    ScannedBase(ScopeName, s.context, map[], None)
  }

  /** Every scope, however built, reports the name `__SCOPE__` with no attributes and no docblock. */
  lemma HeaderIsFixed(s: ScannedScope)
    ensures Header(s).name == ScopeName && Header(s).attributes == map[] && Header(s).docComment == None
  {
  }

  /**
   * The scope constructor. Whatever the twelve sequences, the header is the
   * fixed scope header over the given context, and every getter returns the
   * sequence passed for its own field, unchanged in length and order.
   */
  function NewScope(
    context: Context,
    classes: seq<ScannedBase>,
    interfaces: seq<ScannedBase>,
    traits: seq<ScannedBase>,
    functions: seq<ScannedBase>,
    methods: seq<ScannedBase>,
    usedTraits: seq<ScannedTypehint>,
    properties: seq<ScannedBase>,
    constants: seq<ScannedBase>,
    typeConstants: seq<ScannedBase>,
    enums: seq<ScannedBase>,
    types: seq<ScannedBase>,
    newtypes: seq<ScannedBase>
  ): (s: ScannedScope)
    ensures Header(s).context == context
    ensures s.classes == classes && s.interfaces == interfaces && s.traits == traits
    ensures s.functions == functions && s.methods == methods && s.usedTraits == usedTraits
    ensures s.properties == properties && s.constants == constants
    ensures s.typeConstants == typeConstants && s.enums == enums
    ensures s.types == types && s.newtypes == newtypes
  {
    ScannedScope(
      context,
      classes, interfaces, traits, functions, methods, usedTraits,
      properties, constants, typeConstants, enums, types, newtypes)
  }

  /** The eleven definition-valued fields of a scope, one per getter. */
  datatype ScopeMember =
    | Classes | Interfaces | Traits | Functions | Methods | Properties
    | Constants | TypeConstants | Enums | Types | Newtypes

  /** The getter for `m` (`getClasses`, `getInterfaces`, ...). */
  function Members(s: ScannedScope, m: ScopeMember): seq<ScannedBase> {
    match m
    case Classes => s.classes
    case Interfaces => s.interfaces
    case Traits => s.traits
    case Functions => s.functions
    case Methods => s.methods
    case Properties => s.properties
    case Constants => s.constants
    case TypeConstants => s.typeConstants
    case Enums => s.enums
    case Types => s.types
    case Newtypes => s.newtypes
  }

  /**
   * The fields are independent: choose any sequence for each getter, build
   * the scope, and every getter hands back exactly its own choice (so, for
   * instance, the methods getter never returns the functions).
   */
  lemma FieldsAreIndependent(
    context: Context,
    pick: ScopeMember -> seq<ScannedBase>,
    usedTraits: seq<ScannedTypehint>
  )
    ensures var s := NewScope(context,
      pick(Classes), pick(Interfaces), pick(Traits), pick(Functions), pick(Methods),
      usedTraits, pick(Properties), pick(Constants), pick(TypeConstants),
      pick(Enums), pick(Types), pick(Newtypes));
      && (forall m :: Members(s, m) == pick(m))
      && s.usedTraits == usedTraits
  {
  }

  /**
   * Two scopes built by the constructor are equal exactly when they were
   * built from equal arguments: a scope value determines everything passed in.
   */
  lemma NewScopeInjective(
    c1: Context, p1: ScopeMember -> seq<ScannedBase>, u1: seq<ScannedTypehint>,
    c2: Context, p2: ScopeMember -> seq<ScannedBase>, u2: seq<ScannedTypehint>
  )
    requires NewScope(c1,
      p1(Classes), p1(Interfaces), p1(Traits), p1(Functions), p1(Methods),
      u1, p1(Properties), p1(Constants), p1(TypeConstants),
      p1(Enums), p1(Types), p1(Newtypes))
      == NewScope(c2,
      p2(Classes), p2(Interfaces), p2(Traits), p2(Functions), p2(Methods),
      u2, p2(Properties), p2(Constants), p2(TypeConstants),
      p2(Enums), p2(Types), p2(Newtypes))
    ensures c1 == c2 && u1 == u2
    ensures forall m :: p1(m) == p2(m)
  {
    forall m ensures p1(m) == p2(m) {
      match m
      case Classes =>
      case Interfaces =>
      case Traits =>
      case Functions =>
      case Methods =>
      case Properties =>
      case Constants =>
      case TypeConstants =>
      case Enums =>
      case Types =>
      case Newtypes =>
    }
  }
}
