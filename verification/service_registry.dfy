/** The test-service factory: services are registered under the test type
    they report, later registrations replace earlier ones under the same
    type, and a test is run only for a known type and a valid request. */
module ServiceRegistry {
  import opened Wrappers
  import opened Values
  import opened Environment
  import opened BaseService
  import DetectService
  import RegressionService
  import NetPositionService
  import SessionReminderService
  import MaxBetLimitService
  import MultipleSpinService
  import BankingService
  import PlaycheckService
  import PracticePlayService
  import HelpDetectionService

  datatype ServiceKind =
    | SessionReminder | Playcheck | MultipleSpin | Banking | PracticePlay
    | MaxBetLimit | Detect | Regression | HelpDetection | NetPosition

  /** A service instance: its behaviour and the test type given to the base
      class constructor, which `get_test_type` returns. */
  datatype Service = Service(kind: ServiceKind, testType: string)

  /** The test type each service class passes to the base constructor. */
  function TypeOf(kind: ServiceKind): string
  {
    match kind
    case SessionReminder => SessionReminderService.TestType
    case Playcheck => PlaycheckService.TestType
    case MultipleSpin => MultipleSpinService.TestType
    case Banking => BankingService.TestType
    case PracticePlay => PracticePlayService.TestType
    case MaxBetLimit => MaxBetLimitService.TestType
    case Detect => DetectService.TestType
    case Regression => RegressionService.TestType
    case HelpDetection => HelpDetectionService.TestType
    case NetPosition => NetPositionService.TestType
  }

  /** Constructing a service of a kind; `get_test_type` then returns the
      type string of that kind. */
  function NewService(kind: ServiceKind): (s: Service)
    ensures s.kind == kind && s.testType == TypeOf(kind)
  {
    Service(kind, TypeOf(kind))
  }

  /** The list `_initialize_services` registers, in order. */
  function DefaultServices(): (list: seq<Service>)
    ensures |list| == 9
  {
    [NewService(SessionReminder), NewService(Playcheck), NewService(MultipleSpin), NewService(Banking),
     NewService(PracticePlay), NewService(MaxBetLimit), NewService(Detect), NewService(Regression),
     NewService(HelpDetection)]
  }

  /** The classes of the default list, in registration order. */
  function DefaultKinds(): (kinds: seq<ServiceKind>)
    ensures |kinds| == |DefaultServices()|
    ensures forall i :: 0 <= i < |kinds| ==> DefaultServices()[i] == NewService(kinds[i])
  {
    [SessionReminder, Playcheck, MultipleSpin, Banking, PracticePlay, MaxBetLimit, Detect, Regression,
     HelpDetection]
  }

  /** A class that defines both abstract methods of the base class. The
      help-detection class defines `execute_test` only. */
  predicate Concrete(kind: ServiceKind)
  {
    kind != HelpDetection
  }

  /** Instantiating the classes of `_initialize_services` in order, as
      written: the first class that is still abstract raises TypeError,
      named here by its kind. */
  function InstantiateAsWritten(kinds: seq<ServiceKind>): (r: Result<seq<Service>, ServiceKind>)
    ensures r.Success? <==> forall k :: 0 <= k < |kinds| ==> Concrete(kinds[k])
    ensures r.Success? ==> |r.value| == |kinds| && forall k :: 0 <= k < |kinds| ==> r.value[k] == NewService(kinds[k])
    ensures r.Failure? ==> !Concrete(r.error) && r.error in kinds
    decreases |kinds|
  {
    if kinds == [] then Success([])
    else if !Concrete(kinds[0]) then Failure(kinds[0])
    else
      match InstantiateAsWritten(kinds[1..])
      case Failure(k) => Failure(k)
      case Success(rest) => Success([NewService(kinds[0])] + rest)
  }

  /** As written, building the factory raises: the last class of the
      default list cannot be instantiated, so no service gets registered. */
  lemma AsWrittenFactoryRaises()
    ensures InstantiateAsWritten(DefaultKinds()) == Failure(HelpDetection)
  {
    var kinds := DefaultKinds();
    assert forall k :: 0 <= k < 8 ==> Concrete(kinds[k]);
    assert kinds[8..] == [HelpDetection];
  }

  /** The service's `validate_request`. */
  function Validate(s: Service, req: TestExecutionRequest, env: Env): bool
  {
    match s.kind
    case SessionReminder => SessionReminderService.ValidateRequest(req)
    case Playcheck => PlaycheckService.ValidateRequest(req)
    case MultipleSpin => MultipleSpinService.ValidateRequest(req, env.b64Decodes)
    case Banking => BankingService.ValidateRequest(req)
    case PracticePlay => PracticePlayService.ValidateRequest(req)
    case MaxBetLimit => MaxBetLimitService.ValidateRequest(req)
    case Detect => DetectService.ValidateRequest(req, env.b64Decodes)
    case Regression => RegressionService.ValidateRequest(req)
    case HelpDetection => true
    case NetPosition => NetPositionService.ValidateRequest(req)
  }

  /** The service's `execute_test`. */
  function Run(s: Service, req: TestExecutionRequest, env: Env): TestExecutionResponse
  {
    match s.kind
    case SessionReminder => SessionReminderService.Execute(req, env)
    case Playcheck => PlaycheckService.Execute(req, env)
    case MultipleSpin => MultipleSpinService.Execute(req, env)
    case Banking => BankingService.Execute(req, env)
    case PracticePlay => PracticePlayService.Execute(req, env)
    case MaxBetLimit => MaxBetLimitService.Execute(req, env)
    case Detect => DetectService.Execute(req, env)
    case Regression => RegressionService.Execute(req, env)
    case HelpDetection => HelpDetectionService.Execute(req)
    case NetPosition => NetPositionService.Execute(req, env)
  }

  /** Dispatch to the service, through the loops of the services that have them. */
  method RunService(s: Service, req: TestExecutionRequest, env: Env) returns (resp: TestExecutionResponse)
    ensures resp == Run(s, req, env)
  {
    match s.kind
    case Detect => resp := DetectService.ExecuteTest(req, env);
    case MultipleSpin => resp := MultipleSpinService.ExecuteTest(req, env);
    case _ => resp := Run(s, req, env);
  }

  /** The dictionary after registering `list` in order: each service under
      its test type, a later one replacing an earlier one. */
  function Registration(list: seq<Service>): map<string, Service>
  {
    if list == [] then map[]
    else
      var last := list[|list| - 1];
      Registration(list[..|list| - 1])[last.testType := last]
  }

  predicate NoDup(xs: seq<string>)
  {
    forall i, j :: 0 <= i < j < |xs| ==> xs[i] != xs[j]
  }

  /** The dictionary's key order: a type enters when first registered and
      keeps its place when replaced. */
  function KeyOrder(list: seq<Service>): (keys: seq<string>)
    ensures NoDup(keys)
    ensures (set k | k in keys) == Registration(list).Keys
  {
    if list == [] then []
    else
      var prev := KeyOrder(list[..|list| - 1]);
      var t := list[|list| - 1].testType;
      if t in prev then prev else prev + [t]
  }

  /** Every registered type is some service's type, stored with the service
      last registered under it. */
  lemma {:induction false} RegistrationLastWins(list: seq<Service>, i: nat)
    requires i < |list|
    requires forall j :: i < j < |list| ==> list[j].testType != list[i].testType
    ensures list[i].testType in Registration(list)
    ensures Registration(list)[list[i].testType] == list[i]
    decreases |list|
  {
    var n := |list| - 1;
    if i < n {
      var prefix := list[..n];
      assert forall j :: i < j < |prefix| ==> prefix[j] == list[j];
      RegistrationLastWins(prefix, i);
    }
  }

  /** Only the types of registered services are keys. */
  lemma {:induction false} RegisteredTypes(list: seq<Service>, t: string)
    ensures t in Registration(list) <==> exists i :: 0 <= i < |list| && list[i].testType == t
    decreases |list|
  {
    if list != [] {
      var n := |list| - 1;
      RegisteredTypes(list[..n], t);
      if t in Registration(list[..n]) {
        var i :| 0 <= i < n && list[..n][i].testType == t;
        assert list[i].testType == t;
      }
      if exists i :: 0 <= i < |list| && list[i].testType == t {
        var i :| 0 <= i < |list| && list[i].testType == t;
        if i < n {
          assert list[..n][i].testType == t;
        }
      }
    }
  }

  /** Registering more services never reorders the keys already present. */
  lemma {:induction false} KeyOrderExtends(list: seq<Service>, i: nat)
    requires i <= |list|
    ensures KeyOrder(list[..i]) <= KeyOrder(list)
    decreases |list| - i
  {
    if i < |list| {
      KeyOrderExtends(list, i + 1);
      assert list[..i + 1][..i] == list[..i];
    } else {
      assert list[..i] == list;
    }
  }

  /** The test types of the default list, in order. */
  function DefaultTypes(): (types: seq<string>)
    ensures |types| == 9
    ensures forall i :: 0 <= i < 9 ==> types[i] == DefaultServices()[i].testType
  {
    [SessionReminderService.TestType, PlaycheckService.TestType, MultipleSpinService.TestType,
     BankingService.TestType, PracticePlayService.TestType, MaxBetLimitService.TestType,
     DetectService.TestType, RegressionService.TestType, HelpDetectionService.TestType]
  }

  /** The nine type strings have nine different lengths. */
  lemma DefaultTypesDistinct()
    ensures NoDup(DefaultTypes())
  {
    var types := DefaultTypes();
    var lengths := [16, 47, 45, 7, 13, 21, 20, 10, 19];
    assert forall i :: 0 <= i < 9 ==> |types[i]| == lengths[i];
  }

  /** Each service of the default list reports a different test type, so
      every one of them is reachable, in registration order. */
  lemma DefaultRegistry()
    ensures KeyOrder(DefaultServices()) == DefaultTypes()
    ensures forall i :: 0 <= i < 9 ==>
      && DefaultTypes()[i] in Registration(DefaultServices())
      && Registration(DefaultServices())[DefaultTypes()[i]] == DefaultServices()[i]
  {
    var list := DefaultServices();
    var types := DefaultTypes();
    DefaultTypesDistinct();
    KeyOrderPrefix(list, types, 9);
    assert list[..9] == list;
    assert types[..9] == types;
    forall i | 0 <= i < 9
      ensures types[i] in Registration(list) && Registration(list)[types[i]] == list[i]
    {
      forall j | i < j < 9
        ensures list[j].testType != list[i].testType
      {
        assert types[i] != types[j];
      }
      RegistrationLastWins(list, i);
    }
  }

  /** The Net Position service is not registered, so its type is rejected. */
  lemma NetPositionUnregistered()
    ensures NetPositionService.TestType !in Registration(DefaultServices())
  {
    var list := DefaultServices();
    var types := DefaultTypes();
    assert forall i :: 0 <= i < 9 ==> |types[i]| != 12;
    RegisteredTypes(list, NetPositionService.TestType);
  }

  lemma {:induction false} KeyOrderPrefix(list: seq<Service>, types: seq<string>, k: nat)
    requires |list| == |types| && k <= |list|
    requires forall i :: 0 <= i < |list| ==> types[i] == list[i].testType
    requires NoDup(types)
    ensures KeyOrder(list[..k]) == types[..k]
  {
    if k > 0 {
      KeyOrderPrefix(list, types, k - 1);
      assert list[..k][..k - 1] == list[..k - 1];
      assert types[k - 1] !in types[..k - 1];
      assert types[..k] == types[..k - 1] + [types[k - 1]];
    }
  }

  /** `TestServiceFactory`: the `_services` dictionary, with its key order. */
  class TestServiceFactory {
    var services: map<string, Service>
    var keys: seq<string>

    ghost predicate Valid()
      reads this
    {
      && NoDup(keys)
      && (set k | k in keys) == services.Keys
      && forall t :: t in services ==> services[t].testType == t
    }

    /** `_initialize_services` over the given list: each service stored
        under its own `get_test_type()`. */
    constructor (list: seq<Service>)
      ensures services == Registration(list) && keys == KeyOrder(list)
      ensures Valid()
    {
      var registered: map<string, Service> := map[];
      var order: seq<string> := [];
      for i := 0 to |list|
        invariant registered == Registration(list[..i]) && order == KeyOrder(list[..i])
        invariant forall t :: t in registered ==> registered[t].testType == t
      {
        assert list[..i + 1][..i] == list[..i];
        var testType := list[i].testType;
        if testType !in registered {
          order := order + [testType];
        }
        registered := registered[testType := list[i]];
      }
      assert list[..|list|] == list;
      services := registered;
      keys := order;
    }

    /** `get_service`: the registered service, or None. */
    function GetService(testType: string): (r: Option<Service>)
      reads this
      ensures r.Some? <==> testType in services
      ensures r.Some? ==> r.value == services[testType]
    {
      if testType in services then Some(services[testType]) else None
    }

    /** `is_valid_test_type` */
    function IsValidTestType(testType: string): (ok: bool)
      reads this
      ensures ok <==> GetService(testType).Some?
    {
      testType in services
    }

    /** `get_available_test_types`: the keys, in registration order. */
    function GetAvailableTestTypes(): (types: seq<string>)
      reads this
      requires Valid()
      ensures types == keys
      ensures NoDup(types)
      ensures forall t :: t in types <==> IsValidTestType(t)
    {
      keys
    }

    /** `execute_test`: the ValueError of an unknown type or an invalid
        request, raised before the service runs; otherwise the service's
        response, unchanged. */
    method ExecuteTest(testType: string, req: TestExecutionRequest, env: Env)
      returns (r: Result<TestExecutionResponse, string>)
      ensures !IsValidTestType(testType) ==> r == Failure("No service found for test type: " + testType)
      ensures IsValidTestType(testType) && !Validate(services[testType], req, env) ==>
        r == Failure("Invalid request for test type: " + testType)
      ensures IsValidTestType(testType) && Validate(services[testType], req, env) ==>
        r == Success(Run(services[testType], req, env))
    {
      var service := GetService(testType);
      if service.None? {
        return Failure("No service found for test type: " + testType);
      }
      if !Validate(service.value, req, env) {
        return Failure("Invalid request for test type: " + testType);
      }
      var resp := RunService(service.value, req, env);
      return Success(resp);
    }
  }
}
