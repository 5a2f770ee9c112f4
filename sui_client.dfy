/**
 * The ledger client: the fixed call schema of the `result_registry_v2` contract, the submission
 * mode of each call, and the private-key format dispatch that produces the signer.
 * The ledger itself (signing, RPC, the decoders of key material) is an oracle.
 */
module SuiClient {
  import opened Common

  const RegistryModule := "result_registry_v2"
  /** The well-known shared clock object every state-changing entry point takes last. */
  const ClockId := "0x6"
  const Bech32Prefix := "suiprivkey1"
  const HexPrefix := "0x"
  const InvalidKeyMessage := "Invalid SUI_PRIVATE_KEY format. Please check your private key."

  /** The object identifiers read from the environment once, at start-up. */
  datatype Config = Config(packageId: string, registryId: string, institutionCapId: string)

  datatype ResultData = ResultData(studentId: string, courseCode: string, grade: string, semester: string)

  /** The logical key of a result. */
  datatype Key = Key(studentId: string, courseCode: string, semester: string)

  /** The six exported ledger operations, each with exactly the arguments it takes. */
  datatype Call =
    | AddResult(data: ResultData)
    | GetResult(key: Key)
    | VerifyResult(key: Key)
    | UpdateGrade(key: Key, newGrade: string)
    | CheckResultExists(key: Key)
    | IsResultVerified(key: Key)
  {
    /** The calls submitted as signed transactions. */
    predicate IsStateChanging()
    {
      AddResult? || VerifyResult? || UpdateGrade?
    }
  }

  /** A typed argument of a Move call: an object reference (`tx.object`) or a pure string (`tx.pure.string`). */
  datatype Arg = Object(id: string) | PureString(value: string)

  /** Signed execution, or a read-only dev-inspect on behalf of a sender address. */
  datatype Mode = SignedExecute | DevInspect(sender: string)

  datatype Invocation = Invocation(target: string, arguments: seq<Arg>, mode: Mode)

  function EntryPoint(call: Call): string
  {
    match call
    case AddResult(_) => "add_result_entry"
    case GetResult(_) => "get_result"
    case VerifyResult(_) => "verify_result_entry"
    case UpdateGrade(_, _) => "update_grade_entry"
    case CheckResultExists(_) => "result_exists"
    case IsResultVerified(_) => "is_result_verified"
  }

  function KeyArgs(k: Key): seq<Arg>
  {
    [PureString(k.studentId), PureString(k.courseCode), PureString(k.semester)]
  }

  /** The string arguments between the registry and the clock, in contract order. */
  function Fields(call: Call): seq<Arg>
  {
    match call
    case AddResult(d) =>
      [PureString(d.studentId), PureString(d.courseCode), PureString(d.grade), PureString(d.semester)]
    case UpdateGrade(k, g) => KeyArgs(k) + [PureString(g)]
    case GetResult(k) => KeyArgs(k)
    case VerifyResult(k) => KeyArgs(k)
    case CheckResultExists(k) => KeyArgs(k)
    case IsResultVerified(k) => KeyArgs(k)
  }

  /**
   * The invocation each exported function builds and how it submits it. State-changing calls are
   * framed by the institution capability in front and the clock at the end; read-only calls carry
   * only the registry and the key, and are dev-inspected on behalf of the signer's address.
   */
  function Build(cfg: Config, sender: string, call: Call): (inv: Invocation)
    ensures inv.target == cfg.packageId + "::" + RegistryModule + "::" + EntryPoint(call)
    ensures inv.mode == if call.IsStateChanging() then SignedExecute else DevInspect(sender)
    ensures call.IsStateChanging() ==>
              && |inv.arguments| >= 3
              && inv.arguments[0] == Object(cfg.institutionCapId)
              && inv.arguments[1] == Object(cfg.registryId)
              && inv.arguments[|inv.arguments| - 1] == Object(ClockId)
              && inv.arguments[2..|inv.arguments| - 1] == Fields(call)
    ensures !call.IsStateChanging() ==> inv.arguments == [Object(cfg.registryId)] + Fields(call)
  {
    var target := cfg.packageId + "::" + RegistryModule + "::" + EntryPoint(call);
    if call.IsStateChanging() then
      Invocation(target, [Object(cfg.institutionCapId), Object(cfg.registryId)] + Fields(call) + [Object(ClockId)],
                 SignedExecute)
    else
      Invocation(target, [Object(cfg.registryId)] + Fields(call), DevInspect(sender))
  }

  lemma AddResultArguments(cfg: Config, sender: string, d: ResultData)
    ensures Build(cfg, sender, AddResult(d)).arguments ==
              [Object(cfg.institutionCapId), Object(cfg.registryId),
               PureString(d.studentId), PureString(d.courseCode), PureString(d.grade), PureString(d.semester),
               Object(ClockId)]
  {
  }

  lemma UpdateGradeArguments(cfg: Config, sender: string, k: Key, newGrade: string)
    ensures Build(cfg, sender, UpdateGrade(k, newGrade)).arguments ==
              [Object(cfg.institutionCapId), Object(cfg.registryId),
               PureString(k.studentId), PureString(k.courseCode), PureString(k.semester), PureString(newGrade),
               Object(ClockId)]
  {
  }

  lemma VerifyResultArguments(cfg: Config, sender: string, k: Key)
    ensures Build(cfg, sender, VerifyResult(k)).arguments ==
              [Object(cfg.institutionCapId), Object(cfg.registryId),
               PureString(k.studentId), PureString(k.courseCode), PureString(k.semester),
               Object(ClockId)]
  {
  }

  lemma ReadOnlyArguments(cfg: Config, sender: string, call: Call)
    requires call.GetResult? || call.CheckResultExists? || call.IsResultVerified?
    ensures Build(cfg, sender, call).arguments ==
              [Object(cfg.registryId), PureString(call.key.studentId), PureString(call.key.courseCode),
               PureString(call.key.semester)]
    ensures Build(cfg, sender, call).mode == DevInspect(sender)
  {
  }

  /** In add the grade precedes the semester; in update-grade the new grade follows it. */
  lemma GradePosition(cfg: Config, sender: string, d: ResultData, newGrade: string)
    ensures Build(cfg, sender, AddResult(d)).arguments[4] == PureString(d.grade)
    ensures Build(cfg, sender, AddResult(d)).arguments[5] == PureString(d.semester)
    ensures Build(cfg, sender, UpdateGrade(Key(d.studentId, d.courseCode, d.semester), newGrade)).arguments[4]
              == PureString(d.semester)
    ensures Build(cfg, sender, UpdateGrade(Key(d.studentId, d.courseCode, d.semester), newGrade)).arguments[5]
              == PureString(newGrade)
  {
  }

  /**
   * The capability and the clock appear in an invocation exactly when the call changes state,
   * given that the registry is a different object from both.
   */
  lemma CapabilityAndClockOnlyOnWrites(cfg: Config, sender: string, call: Call)
    requires cfg.registryId != ClockId && cfg.registryId != cfg.institutionCapId
    ensures Object(ClockId) in Build(cfg, sender, call).arguments <==> call.IsStateChanging()
    ensures Object(cfg.institutionCapId) in Build(cfg, sender, call).arguments <==> call.IsStateChanging()
    ensures Build(cfg, sender, call).mode.SignedExecute? <==> call.IsStateChanging()
  {
  }

  // ---------------------------------------------------------------------------------------------
  // Submission

  /** What a signed execution returns: the transaction digest (possibly absent) and the opaque effects. */
  datatype Receipt = Receipt(digest: Option<string>, effects: string)

  /** What a dev-inspect returns: an opaque simulated value. */
  datatype Inspection = Inspection(raw: string)

  /** A ledger call either returns or throws. */
  datatype Outcome<+T> = Returned(value: T) | Threw(error: Thrown)

  /** The configured client: object ids, the signer's address, and the ledger as two oracles. */
  datatype Client = Client(
    cfg: Config,
    sender: string,
    execute: Invocation -> Outcome<Receipt>,
    inspect: Invocation -> Outcome<Inspection>)

  /**
   * `addResult`, `verifyResult`, `updateGrade`: build the call, submit it once as a signed
   * transaction, and return the receipt or rethrow the ledger's error unchanged.
   */
  function Execute(c: Client, call: Call): (o: Outcome<Receipt>)
    requires call.IsStateChanging()
    ensures Build(c.cfg, c.sender, call).mode == SignedExecute
    ensures o == c.execute(Build(c.cfg, c.sender, call))
  {
    c.execute(Build(c.cfg, c.sender, call))
  }

  /**
   * `getResult`, `checkResultExists`, `isResultVerified`: build the call and dev-inspect it with the
   * signer's address as sender, returning the simulated value or rethrowing the error unchanged.
   */
  function Inspect(c: Client, call: Call): (o: Outcome<Inspection>)
    requires !call.IsStateChanging()
    ensures Build(c.cfg, c.sender, call).mode == DevInspect(c.sender)
    ensures o == c.inspect(Build(c.cfg, c.sender, call))
  {
    c.inspect(Build(c.cfg, c.sender, call))
  }

  // ---------------------------------------------------------------------------------------------
  // Private-key format dispatch

  datatype Keypair = Keypair(secretKey: seq<int>)

  /** The three encodings the key may be in, with the text handed to the decoder. */
  datatype KeyFormat = Bech32(encoded: string) | Hex(digits: string) | Base64(encoded: string)

  /** The decoders of the SDK (each followed by `Ed25519Keypair.fromSecretKey`); `None` is a throw. */
  datatype Decoders = Decoders(
    bech32: string -> Option<Keypair>,
    hex: string -> Option<Keypair>,
    base64: string -> Option<Keypair>)

  function Classify(key: string): (f: KeyFormat)
    ensures f.Bech32? <==> HasPrefix(key, Bech32Prefix)
    ensures f.Hex? <==> !HasPrefix(key, Bech32Prefix) && HasPrefix(key, HexPrefix)
    ensures f.Hex? ==> key == HexPrefix + f.digits
    ensures !f.Hex? ==> f.encoded == key
  {
    if HasPrefix(key, Bech32Prefix) then Bech32(key)
    else if HasPrefix(key, HexPrefix) then Hex(key[2..])
    else Base64(key)
  }

  function Decode(d: Decoders, f: KeyFormat): Option<Keypair>
  {
    match f
    case Bech32(s) => d.bech32(s)
    case Hex(s) => d.hex(s)
    case Base64(s) => d.base64(s)
  }

  /**
   * The keypair initialisation as intended: every way of failing, an unset variable included,
   * ends in the one "Invalid SUI_PRIVATE_KEY format" error.
   */
  function InitKeypair(key: Option<string>, d: Decoders): (r: Result<Keypair, Thrown>)
    ensures r.Failure? ==> r.error == Error(InvalidKeyMessage)
    ensures key.None? ==> r.Failure?
    ensures key.Some? ==> (r.Success? <==> Decode(d, Classify(key.value)).Some?)
    ensures r.Success? ==> key.Some? && r.value == Decode(d, Classify(key.value)).value
  {
    if key.None? then Failure(Error(InvalidKeyMessage))
    else match Decode(d, Classify(key.value))
      case Some(kp) => Success(kp)
      case None => Failure(Error(InvalidKeyMessage))
  }

  const UndefinedSubstringMessage := "Cannot read properties of undefined (reading 'substring')"

  /**
   * The keypair initialisation as written: an unset variable makes `startsWith` throw, and the
   * catch block then calls `substring` on the same undefined value, so a TypeError escapes instead
   * of the intended error. A set variable behaves as intended.
   */
  function InitKeypairAsWritten(key: Option<string>, d: Decoders): (r: Result<Keypair, Thrown>)
    ensures key.None? ==> r == Failure(Error(UndefinedSubstringMessage))
    ensures key.Some? ==> r == InitKeypair(key, d)
  {
    if key.None? then Failure(Error(UndefinedSubstringMessage)) else InitKeypair(key, d)
  }

  lemma UnsetKeyEscapesAsTypeError(d: Decoders)
    ensures InitKeypairAsWritten(None, d).Failure?
    ensures InitKeypairAsWritten(None, d).error != Error(InvalidKeyMessage)
    ensures InitKeypair(None, d) == Failure(Error(InvalidKeyMessage))
  {
  }

  /** The module-level client: configuration, the signer from the key, and the ledger oracles. */
  function Connect(cfg: Config, key: Option<string>, d: Decoders, addressOf: Keypair -> string,
                   execute: Invocation -> Outcome<Receipt>, inspect: Invocation -> Outcome<Inspection>)
    : (r: Result<Client, Thrown>)
    ensures r.Failure? <==> InitKeypair(key, d).Failure?
    ensures r.Failure? ==> r.error == Error(InvalidKeyMessage)
    ensures r.Success? ==> r.value.cfg == cfg && r.value.sender == addressOf(InitKeypair(key, d).value)
  {
    match InitKeypair(key, d)
    case Success(kp) => Success(Client(cfg, addressOf(kp), execute, inspect))
    case Failure(e) => Failure(e)
  }
}
