/**
  The top-level contract builder. Six contract properties are exposed through property
  delegates: reading one reads the contract's field, writing one writes it, and a delegate
  given a default writes that default once, when the builder is created. `priority`,
  `label`, `description` and `name` have no default; `ignored` and `inProgress` default to
  `false`. Each of `request`, `response`, `input` and `outputMessage` replaces its own part
  of the contract with what its block built.
 */
module ContractDsl {

  import opened Nullable
  import opened Values
  import RequestDsl
  import ResponseDsl

  /** Built by `InputDsl`, which is not part of this model. */
  datatype Input = Input(entries: seq<(string, Value)>)

  /** Built by `OutputMessageDsl`, which is not part of this model. */
  datatype OutputMessage = OutputMessage(entries: seq<(string, Value)>)

  /** The Java `Contract`; `null` fields are `None`. `contractLabel` is its `label` (a Dafny keyword). */
  datatype Contract = Contract(
    priority: Option<int>,
    contractLabel: Option<string>,
    description: Option<string>,
    name: Option<string>,
    ignored: bool,
    inProgress: bool,
    request: Option<RequestDsl.Request>,
    response: Option<ResponseDsl.Response>,
    input: Option<Input>,
    outputMessage: Option<OutputMessage>)

  /** `Contract()`. */
  const EmptyContract := Contract(None, None, None, None, false, false, None, None, None, None)

  /** The contract properties reached through a delegate. */
  datatype Field = Priority | Label | Description | Name | Ignored | InProgress

  /** The value of a delegated property: `Int?`, `String?` or `Boolean`. */
  datatype FieldValue = IntValue(i: Option<int>) | TextValue(t: Option<string>) | BoolValue(b: bool)

  /** `v` has the Kotlin type of property `f`. */
  predicate Fits(f: Field, v: FieldValue) {
    match f
    case Priority => v.IntValue?
    case Label | Description | Name => v.TextValue?
    case Ignored | InProgress => v.BoolValue?
  }

  /** The delegate's getter: the contract's field. */
  function Read(c: Contract, f: Field): (v: FieldValue)
    ensures Fits(f, v)
  {
    match f
    case Priority => IntValue(c.priority)
    case Label => TextValue(c.contractLabel)
    case Description => TextValue(c.description)
    case Name => TextValue(c.name)
    case Ignored => BoolValue(c.ignored)
    case InProgress => BoolValue(c.inProgress)
  }

  /** The delegate's setter: reads back what it wrote and touches nothing else. */
  function Write(c: Contract, f: Field, v: FieldValue): (r: Contract)
    requires Fits(f, v)
    ensures Read(r, f) == v
    ensures forall g :: g != f ==> Read(r, g) == Read(c, g)
    ensures r.request == c.request && r.response == c.response
    ensures r.input == c.input && r.outputMessage == c.outputMessage
  {
    match f
    case Priority => c.(priority := v.i)
    case Label => c.(contractLabel := v.t)
    case Description => c.(description := v.t)
    case Name => c.(name := v.t)
    case Ignored => c.(ignored := v.b)
    case InProgress => c.(inProgress := v.b)
  }

  /** `PropertyDelegate(getter, setter, defaultValue)`, bound to one contract field. */
  datatype PropertyDelegate = PropertyDelegate(field: Field, defaultValue: Option<FieldValue>)

  /** The default, when there is one, has the property's type. */
  predicate WellTyped(p: PropertyDelegate) {
    p.defaultValue.Some? ==> Fits(p.field, p.defaultValue.value)
  }

  /** `v` is Kotlin's `null` for a nullable property type. */
  predicate IsNull(v: FieldValue) {
    (v.IntValue? && v.i.None?) || (v.TextValue? && v.t.None?)
  }

  /** The default is given and is not `null`. */
  predicate HasDefault(p: PropertyDelegate) {
    p.defaultValue.Some? && !IsNull(p.defaultValue.value)
  }

  /**
    The delegate's `init`: writes the default only when it is not `null`. A `null`
    default, for an `Int?` or `String?` property, is the same as no default.
   */
  function Init(c: Contract, p: PropertyDelegate): (r: Contract)
    requires WellTyped(p)
    ensures HasDefault(p) ==> Read(r, p.field) == p.defaultValue.value
    ensures !HasDefault(p) ==> r == c
    ensures forall g :: g != p.field ==> Read(r, g) == Read(c, g)
    ensures r.request == c.request && r.response == c.response
    ensures r.input == c.input && r.outputMessage == c.outputMessage
  {
    if HasDefault(p) then Write(c, p.field, p.defaultValue.value) else c
  }

  /** A `null` default leaves the contract as it was, even when the field was set before. */
  lemma NullDefaultIsNoDefault(c: Contract, f: Field)
    requires f == Priority || f == Label || f == Description || f == Name
    ensures Init(c, PropertyDelegate(f, Some(if f == Priority then IntValue(None) else TextValue(None)))) == c
    ensures Init(c, PropertyDelegate(f, Some(if f == Priority then IntValue(None) else TextValue(None))))
            == Init(c, PropertyDelegate(f, None))
  {
  }

  const PriorityDelegate := PropertyDelegate(Priority, None)
  const LabelDelegate := PropertyDelegate(Label, None)
  const DescriptionDelegate := PropertyDelegate(Description, None)
  const NameDelegate := PropertyDelegate(Name, None)
  const IgnoredDelegate := PropertyDelegate(Ignored, Some(BoolValue(false)))
  const InProgressDelegate := PropertyDelegate(InProgress, Some(BoolValue(false)))

  datatype ContractDsl = ContractDsl(contract: Contract)

  /**
    `ContractDsl()` around the given new contract: the delegates are created in
    declaration order, so `ignored` and `inProgress` read `false` and every other field
    keeps the initial contract's value.
   */
  function New(initial: Contract): (d: ContractDsl)
    ensures Read(d.contract, Ignored) == BoolValue(false)
    ensures Read(d.contract, InProgress) == BoolValue(false)
    ensures forall f :: f != Ignored && f != InProgress ==> Read(d.contract, f) == Read(initial, f)
    ensures d.contract.request == initial.request && d.contract.response == initial.response
    ensures d.contract.input == initial.input && d.contract.outputMessage == initial.outputMessage
  {
    var withPriority := Init(initial, PriorityDelegate);
    var withLabel := Init(withPriority, LabelDelegate);
    var withDescription := Init(withLabel, DescriptionDelegate);
    var withName := Init(withDescription, NameDelegate);
    var withIgnored := Init(withName, IgnoredDelegate);
    var withInProgress := Init(withIgnored, InProgressDelegate);
    ContractDsl(withInProgress)
  }

  /** Reading a delegated property. */
  function GetValue(d: ContractDsl, p: PropertyDelegate): (v: FieldValue)
    ensures Fits(p.field, v)
  {
    Read(d.contract, p.field)
  }

  /** Writing a delegated property. */
  function SetValue(d: ContractDsl, p: PropertyDelegate, v: FieldValue): (r: ContractDsl)
    requires Fits(p.field, v)
    ensures GetValue(r, p) == v
    ensures forall q: PropertyDelegate :: q.field != p.field ==> GetValue(r, q) == GetValue(d, q)
    ensures r.contract.request == d.contract.request && r.contract.response == d.contract.response
    ensures r.contract.input == d.contract.input && r.contract.outputMessage == d.contract.outputMessage
  {
    ContractDsl(Write(d.contract, p.field, v))
  }

  /** A read returns the last value written through the delegate, whatever came before. */
  lemma DelegateReadsLastWrite(d: ContractDsl, p: PropertyDelegate, first: FieldValue, second: FieldValue)
    requires Fits(p.field, first) && Fits(p.field, second)
    ensures GetValue(SetValue(SetValue(d, p, first), p, second), p) == second
    ensures SetValue(SetValue(d, p, first), p, second) == SetValue(d, p, second)
  {
  }

  /** `request { }`: the block runs once on a fresh request builder, whose `get()` replaces the request. */
  function SetRequest(d: ContractDsl, configurer: RequestDsl.RequestDsl -> RequestDsl.RequestDsl): (r: ContractDsl)
    ensures r.contract.request == Some(RequestDsl.Get(configurer(RequestDsl.Fresh)))
    ensures r.contract == d.contract.(request := r.contract.request)
  {
    d.(contract := d.contract.(request := Some(RequestDsl.Get(configurer(RequestDsl.Fresh)))))
  }

  /** `response { }`: the block runs once on a fresh response builder, whose `get()` replaces the response. */
  function SetResponse(d: ContractDsl, configurer: ResponseDsl.ResponseDsl -> ResponseDsl.ResponseDsl): (r: ContractDsl)
    ensures r.contract.response == Some(ResponseDsl.Get(configurer(ResponseDsl.Fresh)))
    ensures r.contract == d.contract.(response := r.contract.response)
  {
    d.(contract := d.contract.(response := Some(ResponseDsl.Get(configurer(ResponseDsl.Fresh)))))
  }

  /** `input { }`, given the input the block built. */
  function SetInput(d: ContractDsl, input: Input): (r: ContractDsl)
    ensures r.contract.input == Some(input)
    ensures r.contract == d.contract.(input := r.contract.input)
  {
    d.(contract := d.contract.(input := Some(input)))
  }

  /** `outputMessage { }`, given the output message the block built. */
  function SetOutputMessage(d: ContractDsl, outputMessage: OutputMessage): (r: ContractDsl)
    ensures r.contract.outputMessage == Some(outputMessage)
    ensures r.contract == d.contract.(outputMessage := r.contract.outputMessage)
  {
    d.(contract := d.contract.(outputMessage := Some(outputMessage)))
  }

  /**
    `contract { }`: the block applied once to a fresh builder around `Contract()`. The
    defaults the delegates write are the ones `Contract()` already holds, so the fresh
    builder is `Contract()` itself.
   */
  function ContractOf(dsl: ContractDsl -> ContractDsl): (c: Contract)
    ensures c == dsl(ContractDsl(EmptyContract)).contract
  {
    dsl(New(EmptyContract)).contract
  }

  /** An empty `contract { }` is not ignored, not in progress, and has nothing else set. */
  lemma EmptyContractBlock()
    ensures ContractOf(d => d) == EmptyContract
    ensures !ContractOf(d => d).ignored && !ContractOf(d => d).inProgress
  {
  }

  /**
    A block that only sets the request yields exactly that request, with the delegates'
    defaults in place and nothing else set.
   */
  lemma RequestOnlyContract(configurer: RequestDsl.RequestDsl -> RequestDsl.RequestDsl)
    ensures ContractOf(d => SetRequest(d, configurer)) ==
              EmptyContract.(request := Some(RequestDsl.Get(configurer(RequestDsl.Fresh))))
  {
  }
}
