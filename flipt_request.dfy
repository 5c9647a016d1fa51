/**
  Authorization descriptors of the flag-management API (rpc/flipt/request.go).

  Every API operation is reduced to a four-field `Request`: the namespace it
  targets, the resource (or parent resource) acted on, the subject within that
  resource, and the CRUD action. A policy engine consumes that value.
 */
module FliptRequest {

  datatype Option<+T> = None | Some(value: T)
  {
    function GetOr(default: T): T
    {
      match this
      case Some(v) => v
      case None => default
    }
  }

  // ---------------------------------------------------------------------------
  // Taxonomy: three closed enumerations, each backed by its string constant
  // ---------------------------------------------------------------------------

  /** What resource, or parent resource, is being acted on. */
  datatype Resource = ResourceNamespace | ResourceFlag | ResourceSegment | ResourceAuthentication
  {
    /** The string constant Flipt gives the value. */
    function Text(): (t: string)
      ensures |t| > 0
    {
      match this
      case ResourceNamespace => "namespace"
      case ResourceFlag => "flag"
      case ResourceSegment => "segment"
      case ResourceAuthentication => "authentication"
    }
  }

  /** The entity within a resource that the action applies to. */
  datatype Subject =
    | SubjectConstraint | SubjectDistribution | SubjectFlag | SubjectNamespace | SubjectRollout
    | SubjectRule | SubjectSegment | SubjectToken | SubjectVariant
  {
    function Text(): (t: string)
      ensures |t| > 0
    {
      match this
      case SubjectConstraint => "constraint"
      case SubjectDistribution => "distribution"
      case SubjectFlag => "flag"
      case SubjectNamespace => "namespace"
      case SubjectRollout => "rollout"
      case SubjectRule => "rule"
      case SubjectSegment => "segment"
      case SubjectToken => "token"
      case SubjectVariant => "variant"
    }
  }

  /** The action being taken on the resource. */
  datatype Action = ActionCreate | ActionDelete | ActionUpdate | ActionRead
  {
    function Text(): (t: string)
      ensures |t| > 0
    {
      match this
      case ActionCreate => "create"
      case ActionDelete => "delete"
      case ActionUpdate => "update"
      case ActionRead => "read"
    }
  }

  /** Distinct constants of one enumeration have distinct strings, so the typed
      descriptor and its string form determine each other. */
  lemma TextInjective()
    ensures forall r1: Resource, r2: Resource :: r1.Text() == r2.Text() ==> r1 == r2
    ensures forall s1: Subject, s2: Subject :: s1.Text() == s2.Text() ==> s1 == s2
    ensures forall a1: Action, a2: Action :: a1.Text() == a2.Text() ==> a1 == a2
  {
  }

  // ---------------------------------------------------------------------------
  // The descriptor and its builder
  // ---------------------------------------------------------------------------

  /** The descriptor. `subject == None` is the empty subject string the
      Go builder leaves in place when no subject option is given. */
  datatype Request = Request(namespace: string, resource: Resource, subject: Option<Subject>, action: Action)

  /** The string form of the subject field: empty when none was set. */
  function SubjectText(s: Option<Subject>): (t: string)
    ensures t == "" <==> s.None?
  {
    match s
    case None => ""
    case Some(x) => x.Text()
  }

  /** A modifier closure passed to the builder: each sets one optional field. */
  datatype Opt = WithNamespace(ns: string) | WithSubject(s: Subject)

  /** Runs one modifier against the descriptor being built: it sets the one
      field it names and leaves the other three alone. */
  function Apply(o: Opt, req: Request): (r: Request)
    ensures r.resource == req.resource && r.action == req.action
    ensures o.WithNamespace? ==> r.namespace == o.ns && r.subject == req.subject
    ensures o.WithSubject? ==> r.subject == Some(o.s) && r.namespace == req.namespace
  {
    match o
    case WithNamespace(ns) => req.(namespace := ns)
    case WithSubject(s) => req.(subject := Some(s))
  }

  /** Runs the modifiers in list order, the first one first. */
  function ApplyAll(req: Request, opts: seq<Opt>): Request
    decreases |opts|
  {
    if opts == [] then req else ApplyAll(Apply(opts[0], req), opts[1..])
  }

  /** The descriptor the builder returns: mandatory resource and action,
      empty namespace and subject, then every modifier in order. */
  function Build(r: Resource, a: Action, opts: seq<Opt>): (req: Request)
    ensures req.resource == r && req.action == a
    ensures req.namespace == LastNamespace(opts).GetOr("")
    ensures req.subject == LastSubject(opts)
  {
    ApplyAllLastWins(Request("", r, None, a), opts);
    ApplyAll(Request("", r, None, a), opts)
  }

  /** No namespace modifier stands in `opts` after index `i`. */
  ghost predicate NoNamespaceAfter(opts: seq<Opt>, i: int)
  {
    forall j :: 0 <= j < |opts| && i < j ==> !opts[j].WithNamespace?
  }

  /** The namespace of the last namespace modifier in `opts`, if there is one. */
  ghost function LastNamespace(opts: seq<Opt>): (l: Option<string>)
    ensures l.None? <==> NoNamespaceAfter(opts, -1)
    ensures l.Some? ==> exists i :: 0 <= i < |opts| && opts[i] == WithNamespace(l.value) && NoNamespaceAfter(opts, i)
    decreases |opts|
  {
    if opts == [] then None
    else if opts[|opts| - 1].WithNamespace? then Some(opts[|opts| - 1].ns)
    else
      var init := opts[..|opts| - 1];
      var l := LastNamespace(init);
      assert forall i :: 0 <= i < |init| ==> init[i] == opts[i];
      if l.None? then l
      else
        var i :| 0 <= i < |init| && init[i] == WithNamespace(l.value) && NoNamespaceAfter(init, i);
        assert opts[i] == WithNamespace(l.value) && NoNamespaceAfter(opts, i);
        l
  }

  /** No subject modifier stands in `opts` after index `i`. */
  ghost predicate NoSubjectAfter(opts: seq<Opt>, i: int)
  {
    forall j :: 0 <= j < |opts| && i < j ==> !opts[j].WithSubject?
  }

  /** The subject of the last subject modifier in `opts`, if there is one. */
  ghost function LastSubject(opts: seq<Opt>): (l: Option<Subject>)
    ensures l.None? <==> NoSubjectAfter(opts, -1)
    ensures l.Some? ==> exists i :: 0 <= i < |opts| && opts[i] == WithSubject(l.value) && NoSubjectAfter(opts, i)
    decreases |opts|
  {
    if opts == [] then None
    else if opts[|opts| - 1].WithSubject? then Some(opts[|opts| - 1].s)
    else
      var init := opts[..|opts| - 1];
      var l := LastSubject(init);
      assert forall i :: 0 <= i < |init| ==> init[i] == opts[i];
      if l.None? then l
      else
        var i :| 0 <= i < |init| && init[i] == WithSubject(l.value) && NoSubjectAfter(init, i);
        assert opts[i] == WithSubject(l.value) && NoSubjectAfter(opts, i);
        l
  }

  /** Modifiers run in list order: appending one runs it after all the others. */
  lemma {:induction false} ApplyAllSnoc(req: Request, opts: seq<Opt>, o: Opt)
    ensures ApplyAll(req, opts + [o]) == Apply(o, ApplyAll(req, opts))
    decreases |opts|
  {
    if opts == [] {
      assert [o][1..] == [];
    } else {
      assert (opts + [o])[1..] == opts[1..] + [o];
      ApplyAllSnoc(Apply(opts[0], req), opts[1..], o);
    }
  }

  /** Running the modifiers leaves resource and action alone, and the last
      modifier of each kind decides its field (the earlier value survives
      only when no modifier of that kind is given). */
  lemma {:induction false} ApplyAllLastWins(req: Request, opts: seq<Opt>)
    ensures ApplyAll(req, opts) ==
      Request(LastNamespace(opts).GetOr(req.namespace), req.resource,
              if LastSubject(opts).Some? then LastSubject(opts) else req.subject, req.action)
    decreases |opts|
  {
    if opts != [] {
      var init, last := opts[..|opts| - 1], opts[|opts| - 1];
      assert opts == init + [last];
      ApplyAllSnoc(req, init, last);
      ApplyAllLastWins(req, init);
    }
  }

  /** The builder: starts from resource and action with empty namespace and
      subject, then lets every modifier update the descriptor in order. */
  method NewRequest(r: Resource, a: Action, opts: seq<Opt>) returns (req: Request)
    ensures req == Build(r, a, opts)
    ensures req.resource == r && req.action == a
    ensures req.namespace == LastNamespace(opts).GetOr("")
    ensures req.subject == LastSubject(opts)
  {
    req := Request("", r, None, a);
    var i := 0;
    while i < |opts|
      invariant 0 <= i <= |opts|
      invariant ApplyAll(req, opts[i..]) == Build(r, a, opts)
    {
      assert opts[i..][1..] == opts[i + 1..];
      match opts[i] {
        case WithNamespace(ns) => req := req.(namespace := ns);
        case WithSubject(s) => req := req.(subject := Some(s));
      }
      i := i + 1;
    }
    ApplyAllLastWins(Request("", r, None, a), opts);
  }

  /** A later namespace modifier overwrites an earlier one, and touches no other field. */
  lemma LaterNamespaceWins(r: Resource, a: Action, opts: seq<Opt>, ns: string)
    ensures Build(r, a, opts + [WithNamespace(ns)]) == Build(r, a, opts).(namespace := ns)
  {
    ApplyAllSnoc(Request("", r, None, a), opts, WithNamespace(ns));
  }

  /** A later subject modifier overwrites an earlier one, and touches no other field. */
  lemma LaterSubjectWins(r: Resource, a: Action, opts: seq<Opt>, s: Subject)
    ensures Build(r, a, opts + [WithSubject(s)]) == Build(r, a, opts).(subject := Some(s))
  {
    ApplyAllSnoc(Request("", r, None, a), opts, WithSubject(s));
  }

  /** A single namespace modifier sets the namespace and leaves the subject empty. */
  lemma NamespaceOnly(r: Resource, a: Action, ns: string)
    ensures Build(r, a, [WithNamespace(ns)]) == Request(ns, r, None, a)
  {
    var o := WithNamespace(ns);
    assert [o][1..] == [];
    assert Build(r, a, [o]) == ApplyAll(Apply(o, Request("", r, None, a)), []);
  }

  // ---------------------------------------------------------------------------
  // Scoped helpers: the resource is fixed by the helper
  // ---------------------------------------------------------------------------

  /** A descriptor on a flag or one of its children (variant, rule, rollout). */
  function FlagScoped(ns: string, s: Subject, a: Action): (req: Request)
    ensures req == Request(ns, ResourceFlag, Some(s), a)
  {
    Build(ResourceFlag, a, [WithNamespace(ns), WithSubject(s)])
  }

  /** A descriptor on a segment or one of its children (constraint, distribution). */
  function SegmentScoped(ns: string, s: Subject, a: Action): (req: Request)
    ensures req == Request(ns, ResourceSegment, Some(s), a)
  {
    Build(ResourceSegment, a, [WithNamespace(ns), WithSubject(s)])
  }

  // ---------------------------------------------------------------------------
  // The operations and their descriptors
  // ---------------------------------------------------------------------------

  /** Every operation-carrying input of the API, with the one field its
      descriptor reads: `key` for namespace operations, `namespaceKey` for the rest. */
  datatype Operation =
    // Namespaces
    | GetNamespace(key: string)
    | ListNamespace
    | CreateNamespace(key: string)
    | UpdateNamespace(key: string)
    | DeleteNamespace(key: string)
    // Flags
    | GetFlag(namespaceKey: string)
    | ListFlag(namespaceKey: string)
    | CreateFlag(namespaceKey: string)
    | UpdateFlag(namespaceKey: string)
    | DeleteFlag(namespaceKey: string)
    // Variants
    | CreateVariant(namespaceKey: string)
    | UpdateVariant(namespaceKey: string)
    | DeleteVariant(namespaceKey: string)
    // Rules
    | ListRule(namespaceKey: string)
    | GetRule(namespaceKey: string)
    | CreateRule(namespaceKey: string)
    | UpdateRule(namespaceKey: string)
    | OrderRules(namespaceKey: string)
    | DeleteRule(namespaceKey: string)
    // Rollouts
    | ListRollout(namespaceKey: string)
    | GetRollout(namespaceKey: string)
    | CreateRollout(namespaceKey: string)
    | UpdateRollout(namespaceKey: string)
    | OrderRollouts(namespaceKey: string)
    | DeleteRollout(namespaceKey: string)
    // Segments
    | GetSegment(namespaceKey: string)
    | ListSegment(namespaceKey: string)
    | CreateSegment(namespaceKey: string)
    | UpdateSegment(namespaceKey: string)
    | DeleteSegment(namespaceKey: string)
    // Constraints
    | CreateConstraint(namespaceKey: string)
    | UpdateConstraint(namespaceKey: string)
    | DeleteConstraint(namespaceKey: string)
    // Distributions
    | CreateDistribution(namespaceKey: string)
    | UpdateDistribution(namespaceKey: string)
    | DeleteDistribution(namespaceKey: string)

  // ---------------------------------------------------------------------------
  // An independent classification of the operations, read off their names
  // ---------------------------------------------------------------------------

  /** The entity an operation is named after. */
  datatype Entity = Namespace | Flag | Variant | Rule | Rollout | Segment | Constraint | Distribution

  /** The verb an operation is named after. */
  datatype Verb = Get | List | Create | Update | Order | Delete

  function EntityOf(op: Operation): Entity
  {
    match op
    case GetNamespace(_) | ListNamespace | CreateNamespace(_) | UpdateNamespace(_) | DeleteNamespace(_) => Namespace
    case GetFlag(_) | ListFlag(_) | CreateFlag(_) | UpdateFlag(_) | DeleteFlag(_) => Flag
    case CreateVariant(_) | UpdateVariant(_) | DeleteVariant(_) => Variant
    case ListRule(_) | GetRule(_) | CreateRule(_) | UpdateRule(_) | OrderRules(_) | DeleteRule(_) => Rule
    case ListRollout(_) | GetRollout(_) | CreateRollout(_) | UpdateRollout(_) | OrderRollouts(_) | DeleteRollout(_) => Rollout
    case GetSegment(_) | ListSegment(_) | CreateSegment(_) | UpdateSegment(_) | DeleteSegment(_) => Segment
    case CreateConstraint(_) | UpdateConstraint(_) | DeleteConstraint(_) => Constraint
    case CreateDistribution(_) | UpdateDistribution(_) | DeleteDistribution(_) => Distribution
  }

  function VerbOf(op: Operation): Verb
  {
    match op
    case GetNamespace(_) | GetFlag(_) | GetRule(_) | GetRollout(_) | GetSegment(_) => Get
    case ListNamespace | ListFlag(_) | ListRule(_) | ListRollout(_) | ListSegment(_) => List
    case CreateNamespace(_) | CreateFlag(_) | CreateVariant(_) | CreateRule(_) | CreateRollout(_)
      | CreateSegment(_) | CreateConstraint(_) | CreateDistribution(_) => Create
    case UpdateNamespace(_) | UpdateFlag(_) | UpdateVariant(_) | UpdateRule(_) | UpdateRollout(_)
      | UpdateSegment(_) | UpdateConstraint(_) | UpdateDistribution(_) => Update
    case OrderRules(_) | OrderRollouts(_) => Order
    case DeleteNamespace(_) | DeleteFlag(_) | DeleteVariant(_) | DeleteRule(_) | DeleteRollout(_)
      | DeleteSegment(_) | DeleteConstraint(_) | DeleteDistribution(_) => Delete
  }

  /** The namespace field an operation carries: its key for a namespace
      operation, its namespace key otherwise; listing namespaces carries none. */
  function OwnNamespace(op: Operation): Option<string>
  {
    if op.ListNamespace? then None
    else if op.GetNamespace? || op.CreateNamespace? || op.UpdateNamespace? || op.DeleteNamespace? then Some(op.key)
    else Some(op.namespaceKey)
  }

  /** Reads are Get and List; reordering rules or rollouts is an update. */
  function VerbAction(v: Verb): Action
  {
    match v
    case Get | List => ActionRead
    case Create => ActionCreate
    case Update | Order => ActionUpdate
    case Delete => ActionDelete
  }

  /** The subject an entity's operations carry; namespace operations carry none. */
  function EntitySubject(e: Entity): Option<Subject>
  {
    match e
    case Namespace => None
    case Flag => Some(SubjectFlag)
    case Variant => Some(SubjectVariant)
    case Rule => Some(SubjectRule)
    case Rollout => Some(SubjectRollout)
    case Segment => Some(SubjectSegment)
    case Constraint => Some(SubjectConstraint)
    case Distribution => Some(SubjectDistribution)
  }

  /** The resource an entity's operations act on, as the naming suggests:
      children of a flag under the flag, children of a segment under the segment. */
  function EntityResource(e: Entity): Resource
  {
    match e
    case Namespace => ResourceNamespace
    case Flag | Variant | Rule | Rollout => ResourceFlag
    case Segment | Constraint | Distribution => ResourceSegment
  }

  /** The mapping table as a rule: resource and subject from the entity, action
      from the verb, namespace from the operation's own field. Deleting a
      namespace is the one exception the Go code makes to the resource. */
  function Reference(e: Entity, v: Verb, ns: Option<string>): Request
  {
    var resource := if e == Namespace && v == Delete then ResourceFlag else EntityResource(e);
    Request(ns.GetOr(""), resource, EntitySubject(e), VerbAction(v))
  }

  // ---------------------------------------------------------------------------
  // The mapping table and what it promises
  // ---------------------------------------------------------------------------

  /** The resource each subject belongs to: children of a flag pair with the
      flag resource, children of a segment with the segment resource. The
      token subject is paired with nothing by any operation. */
  function ParentResource(s: Subject): Option<Resource>
  {
    match s
    case SubjectFlag | SubjectVariant | SubjectRule | SubjectRollout => Some(ResourceFlag)
    case SubjectSegment | SubjectConstraint | SubjectDistribution => Some(ResourceSegment)
    case SubjectNamespace => Some(ResourceNamespace)
    case SubjectToken => None
  }

  // One function per group of request types, in the order rpc/flipt/request.go
  // lists them. Each maps its operations one arm per kind and is proved to
  // follow `Reference`; the arm that no operation of the group reaches is
  // discharged by the verifier.

  /** Namespace operations: no subject; deleting is filed under the flag resource. */
  function NamespaceRequest(op: Operation): (r: Request)
    requires EntityOf(op) == Namespace
    ensures r == Reference(Namespace, VerbOf(op), OwnNamespace(op))
  {
    match op
    case GetNamespace(key) => Build(ResourceNamespace, ActionRead, [WithNamespace(key)])
    case ListNamespace => Build(ResourceNamespace, ActionRead, [])
    case CreateNamespace(key) => Build(ResourceNamespace, ActionCreate, [WithNamespace(key)])
    case UpdateNamespace(key) => Build(ResourceNamespace, ActionUpdate, [WithNamespace(key)])
    case DeleteNamespace(key) => Build(ResourceFlag, ActionDelete, [WithNamespace(key)])
    case _ => assert false; Request("", ResourceNamespace, None, ActionRead)
  }

  /** Flag operations. */
  function FlagRequest(op: Operation): (r: Request)
    requires EntityOf(op) == Flag
    ensures r == Reference(Flag, VerbOf(op), OwnNamespace(op))
  {
    match op
    case GetFlag(ns) => FlagScoped(ns, SubjectFlag, ActionRead)
    case ListFlag(ns) => FlagScoped(ns, SubjectFlag, ActionRead)
    case CreateFlag(ns) => FlagScoped(ns, SubjectFlag, ActionCreate)
    case UpdateFlag(ns) => FlagScoped(ns, SubjectFlag, ActionUpdate)
    case DeleteFlag(ns) => FlagScoped(ns, SubjectFlag, ActionDelete)
    case _ => assert false; Request("", ResourceFlag, None, ActionRead)
  }

  /** Variant operations, scoped to their flag. */
  function VariantRequest(op: Operation): (r: Request)
    requires EntityOf(op) == Variant
    ensures r == Reference(Variant, VerbOf(op), OwnNamespace(op))
  {
    match op
    case CreateVariant(ns) => FlagScoped(ns, SubjectVariant, ActionCreate)
    case UpdateVariant(ns) => FlagScoped(ns, SubjectVariant, ActionUpdate)
    case DeleteVariant(ns) => FlagScoped(ns, SubjectVariant, ActionDelete)
    case _ => assert false; Request("", ResourceFlag, None, ActionRead)
  }

  /** Rule operations, scoped to their flag; reordering is an update. */
  function RuleRequest(op: Operation): (r: Request)
    requires EntityOf(op) == Rule
    ensures r == Reference(Rule, VerbOf(op), OwnNamespace(op))
  {
    match op
    case ListRule(ns) => FlagScoped(ns, SubjectRule, ActionRead)
    case GetRule(ns) => FlagScoped(ns, SubjectRule, ActionRead)
    case CreateRule(ns) => FlagScoped(ns, SubjectRule, ActionCreate)
    case UpdateRule(ns) => FlagScoped(ns, SubjectRule, ActionUpdate)
    case OrderRules(ns) => FlagScoped(ns, SubjectRule, ActionUpdate)
    case DeleteRule(ns) => FlagScoped(ns, SubjectRule, ActionDelete)
    case _ => assert false; Request("", ResourceFlag, None, ActionRead)
  }

  /** Rollout operations, scoped to their flag; reordering is an update. */
  function RolloutRequest(op: Operation): (r: Request)
    requires EntityOf(op) == Rollout
    ensures r == Reference(Rollout, VerbOf(op), OwnNamespace(op))
  {
    match op
    case ListRollout(ns) => FlagScoped(ns, SubjectRollout, ActionRead)
    case GetRollout(ns) => FlagScoped(ns, SubjectRollout, ActionRead)
    case CreateRollout(ns) => FlagScoped(ns, SubjectRollout, ActionCreate)
    case UpdateRollout(ns) => FlagScoped(ns, SubjectRollout, ActionUpdate)
    case OrderRollouts(ns) => FlagScoped(ns, SubjectRollout, ActionUpdate)
    case DeleteRollout(ns) => FlagScoped(ns, SubjectRollout, ActionDelete)
    case _ => assert false; Request("", ResourceFlag, None, ActionRead)
  }

  /** Segment operations. */
  function SegmentRequest(op: Operation): (r: Request)
    requires EntityOf(op) == Segment
    ensures r == Reference(Segment, VerbOf(op), OwnNamespace(op))
  {
    match op
    case GetSegment(ns) => SegmentScoped(ns, SubjectSegment, ActionRead)
    case ListSegment(ns) => SegmentScoped(ns, SubjectSegment, ActionRead)
    case CreateSegment(ns) => SegmentScoped(ns, SubjectSegment, ActionCreate)
    case UpdateSegment(ns) => SegmentScoped(ns, SubjectSegment, ActionUpdate)
    case DeleteSegment(ns) => SegmentScoped(ns, SubjectSegment, ActionDelete)
    case _ => assert false; Request("", ResourceSegment, None, ActionRead)
  }

  /** Constraint operations, scoped to their segment. */
  function ConstraintRequest(op: Operation): (r: Request)
    requires EntityOf(op) == Constraint
    ensures r == Reference(Constraint, VerbOf(op), OwnNamespace(op))
  {
    match op
    case CreateConstraint(ns) => SegmentScoped(ns, SubjectConstraint, ActionCreate)
    case UpdateConstraint(ns) => SegmentScoped(ns, SubjectConstraint, ActionUpdate)
    case DeleteConstraint(ns) => SegmentScoped(ns, SubjectConstraint, ActionDelete)
    case _ => assert false; Request("", ResourceSegment, None, ActionRead)
  }

  /** Distribution operations, scoped to their segment. */
  function DistributionRequest(op: Operation): (r: Request)
    requires EntityOf(op) == Distribution
    ensures r == Reference(Distribution, VerbOf(op), OwnNamespace(op))
  {
    match op
    case CreateDistribution(ns) => SegmentScoped(ns, SubjectDistribution, ActionCreate)
    case UpdateDistribution(ns) => SegmentScoped(ns, SubjectDistribution, ActionUpdate)
    case DeleteDistribution(ns) => SegmentScoped(ns, SubjectDistribution, ActionDelete)
    case _ => assert false; Request("", ResourceSegment, None, ActionRead)
  }

  /** The descriptor of an operation (each request type's `Request()`): every
      one of the 36 mappings agrees with the rule, resource and subject from
      the entity, action from the verb, namespace from the operation's own
      field, with delete-namespace as the one exception. */
  function RequestOf(op: Operation): (r: Request)
    ensures r == Reference(EntityOf(op), VerbOf(op), OwnNamespace(op))
  {
    match EntityOf(op)
    case Namespace => NamespaceRequest(op)
    case Flag => FlagRequest(op)
    case Variant => VariantRequest(op)
    case Rule => RuleRequest(op)
    case Rollout => RolloutRequest(op)
    case Segment => SegmentRequest(op)
    case Constraint => ConstraintRequest(op)
    case Distribution => DistributionRequest(op)
  }

  /** A set subject always pairs with the resource it belongs to. */
  lemma SubjectPairsWithParent(op: Operation)
    ensures RequestOf(op).subject.Some? ==>
      ParentResource(RequestOf(op).subject.value) == Some(RequestOf(op).resource)
  {
    var e := EntityOf(op);
    assert EntitySubject(e).Some? ==> ParentResource(EntitySubject(e).value) == Some(EntityResource(e));
  }

  /** What a descriptor tells a policy engine: two operations get the same
      descriptor exactly when they share entity, action and namespace string.
      So get and list of the same entity, update and reorder of rules or
      rollouts, and listing namespaces and getting the namespace "" are
      indistinguishable, while operations on different entities never are. */
  lemma SameDescriptorIff(op1: Operation, op2: Operation)
    ensures RequestOf(op1) == RequestOf(op2) <==>
      EntityOf(op1) == EntityOf(op2) && VerbAction(VerbOf(op1)) == VerbAction(VerbOf(op2))
      && OwnNamespace(op1).GetOr("") == OwnNamespace(op2).GetOr("")
  {
    ReferenceIff(EntityOf(op1), VerbOf(op1), OwnNamespace(op1), EntityOf(op2), VerbOf(op2), OwnNamespace(op2));
  }

  /** The rule tells entities apart by their subject and verbs by their action. */
  lemma ReferenceIff(e1: Entity, v1: Verb, ns1: Option<string>, e2: Entity, v2: Verb, ns2: Option<string>)
    ensures Reference(e1, v1, ns1) == Reference(e2, v2, ns2) <==>
      e1 == e2 && VerbAction(v1) == VerbAction(v2) && ns1.GetOr("") == ns2.GetOr("")
  {
    assert EntitySubject(e1) == EntitySubject(e2) ==> e1 == e2;
  }

  /** Resource and subject are fixed by the entity: flag, variant, rule and
      rollout operations are flag-scoped, segment, constraint and
      distribution operations are segment-scoped, namespace operations carry
      no subject and target the namespace resource, except deleting a
      namespace, which the Go code classifies under the flag resource. */
  lemma ResourceAndSubjectByEntity(op: Operation)
    ensures RequestOf(op).subject == EntitySubject(EntityOf(op))
    ensures EntityOf(op) in {Flag, Variant, Rule, Rollout} ==> RequestOf(op).resource == ResourceFlag
    ensures EntityOf(op) in {Segment, Constraint, Distribution} ==> RequestOf(op).resource == ResourceSegment
    ensures EntityOf(op) == Namespace ==>
      RequestOf(op).resource == (if VerbOf(op) == Delete then ResourceFlag else ResourceNamespace)
  {
  }

  /** The action is fixed by the verb: Get and List read, Create creates,
      Update and the two reorder operations update, Delete deletes. */
  lemma ActionByVerb(op: Operation)
    ensures RequestOf(op).action == VerbAction(VerbOf(op))
    ensures op.OrderRules? || op.OrderRollouts? ==> RequestOf(op).action == ActionUpdate
  {
  }

  /** The namespace is copied from the operation's own namespace field, and
      listing namespaces is the one operation without such a field (its
      namespace is empty; any other operation's is empty when its key is). */
  lemma NamespacePropagates(op: Operation)
    ensures RequestOf(op).namespace == OwnNamespace(op).GetOr("")
    ensures OwnNamespace(op).None? <==> op.ListNamespace?
  {
  }

  /** The two namespace operations that differ from the pattern: listing has
      no namespace, deleting is filed under the flag resource. */
  lemma NamespaceSpecialCases(key: string)
    ensures RequestOf(ListNamespace) == Request("", ResourceNamespace, None, ActionRead)
    ensures RequestOf(DeleteNamespace(key)) == Request(key, ResourceFlag, None, ActionDelete)
  {
  }

  /** Every descriptor has a non-empty resource and action string. The
      datatype encoding already guarantees this for every `Request` value:
      resource and action are enumerations whose strings are all non-empty. */
  lemma DescriptorsNonEmpty(op: Operation)
    ensures |RequestOf(op).resource.Text()| > 0 && |RequestOf(op).action.Text()| > 0
  {
  }

  /** The declared authentication resource, token subject and namespace
      subject are never produced by any mapping. */
  lemma UnusedConstantsNeverProduced(op: Operation)
    ensures RequestOf(op).resource != ResourceAuthentication
    ensures RequestOf(op).subject != Some(SubjectToken)
    ensures RequestOf(op).subject != Some(SubjectNamespace)
  {
    var r := RequestOf(op);
    var e, v := EntityOf(op), VerbOf(op);
    assert r.resource == (if e == Namespace && v == Delete then ResourceFlag else EntityResource(e));
    assert r.subject == EntitySubject(e);
  }
}
