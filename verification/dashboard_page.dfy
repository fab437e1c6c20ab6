/**
 * The device-connection wizard of the dashboard page: a static device catalogue,
 * a fixed four-question onboarding list, the answers collected along the way and
 * the page state that the modal's event handlers and its two timer callbacks update.
 */
module DashboardPage {
  import opened Wrappers

  // ---------------------------------------------------------------------------
  // Devices
  // ---------------------------------------------------------------------------

  /** The device families offered by the three "Connect" buttons; the page's TypeScript
      `DeviceType | null` is `Option<DeviceType>`. */
  datatype DeviceType = Fitbit | AppleWatch | Other

  datatype Signal = Strong | Medium | Weak

  /** A simulated discoverable device. `kind` is the free-form vendor string. */
  datatype FoundDevice = FoundDevice(id: string, name: string, kind: string, signal: Signal)

  /** The static catalogue, keyed by device family. */
  function SampleDevices(t: DeviceType): seq<FoundDevice> {
    match t
    case Fitbit => [
      FoundDevice("fb1", "Fitbit Charge 5", "fitbit", Strong),
      FoundDevice("fb2", "Fitbit Sense 2", "fitbit", Medium),
      FoundDevice("fb3", "Fitbit Versa 4", "fitbit", Weak)
    ]
    case AppleWatch => [
      FoundDevice("aw1", "Apple Watch Series 9", "applewatch", Strong),
      FoundDevice("aw2", "Apple Watch SE", "applewatch", Medium),
      FoundDevice("aw3", "Apple Watch Ultra 2", "applewatch", Weak)
    ]
    case Other => [
      FoundDevice("ot1", "Garmin Venu 3", "garmin", Strong),
      FoundDevice("ot2", "Samsung Galaxy Watch 6", "samsung", Medium),
      FoundDevice("ot3", "Xiaomi Smart Band 8", "xiaomi", Weak)
    ]
  }

  /** How many bars a signal strength is worth: the independent reading of the
      three-bar icon. */
  function SignalRank(s: Signal): nat {
    match s
    case Weak => 1
    case Medium => 2
    case Strong => 3
  }

  /** Every catalogue list has three devices listed from strongest to weakest
      signal, and no two devices anywhere in the catalogue share an id. */
  lemma CatalogueWellFormed(t: DeviceType, u: DeviceType)
    ensures |SampleDevices(t)| == 3
    ensures forall i :: 0 <= i < |SampleDevices(t)| ==> SignalRank(SampleDevices(t)[i].signal) == 3 - i
    ensures forall i, j ::
      (0 <= i < |SampleDevices(t)| && 0 <= j < |SampleDevices(u)| &&
       SampleDevices(t)[i].id == SampleDevices(u)[j].id) ==> t == u && i == j
  {
  }

  /** The heading word for the family being searched for. */
  function GetDeviceName(device: Option<DeviceType>): (name: string)
    ensures name == "Device" <==> device == None
  {
    match device
    case Some(Fitbit) => "Fitbit"
    case Some(AppleWatch) => "Apple Watch"
    case Some(Other) => "Wearable Device"
    case None => "Device"
  }

  /** Distinct families are announced under distinct names. */
  lemma DeviceNameInjective(a: Option<DeviceType>, b: Option<DeviceType>)
    ensures GetDeviceName(a) == GetDeviceName(b) ==> a == b
  {
  }

  /** Whether bar `bar` (1 = shortest, 3 = tallest) of the signal icon is lit. */
  predicate BarLit(signal: Signal, bar: nat) {
    if bar == 1 then signal == Weak || signal == Medium || signal == Strong
    else if bar == 2 then signal == Medium || signal == Strong
    else if bar == 3 then signal == Strong
    else false
  }

  /** The set of lit bars of the icon. */
  function LitBars(signal: Signal): set<nat> {
    set bar | 1 <= bar <= 3 && BarLit(signal, bar)
  }

  /** The icon lights exactly the lowest `SignalRank` bars: weak one, medium two,
      strong three. */
  lemma SignalIconLightsRank(signal: Signal)
    ensures forall bar :: 1 <= bar <= 3 ==> (BarLit(signal, bar) <==> bar <= SignalRank(signal))
    ensures |LitBars(signal)| == SignalRank(signal)
  {
    match signal
    case Weak => assert LitBars(signal) == {1};
    case Medium => assert LitBars(signal) == {1, 2};
    case Strong => assert LitBars(signal) == {1, 2, 3};
  }

  // ---------------------------------------------------------------------------
  // Questions and answers
  // ---------------------------------------------------------------------------

  datatype Field = PersonName | Relationship | Age | HealthConditions

  datatype Question = Question(field: Field, text: string, options: seq<string>, multiSelect: bool)

  /** The fixed onboarding questionnaire. Only the last question, the health
      conditions, is multi-select; every question offers at least one option. */
  function GetQuestions(): (qs: seq<Question>)
    ensures |qs| == 4
    ensures forall i :: 0 <= i < |qs| ==> (qs[i].multiSelect <==> i == |qs| - 1)
    ensures forall i :: 0 <= i < |qs| ==> (qs[i].field == HealthConditions <==> i == |qs| - 1)
    ensures forall i, j :: 0 <= i < j < |qs| ==> qs[i].field != qs[j].field
    ensures forall i :: 0 <= i < |qs| ==> |qs[i].options| > 0
  {
    [
      Question(PersonName, "Who will be wearing this device?",
        ["Mum", "Dad", "Grandma", "Grandpa", "Other"], false),
      Question(Relationship, "What is your relationship to them?",
        ["Son/Daughter", "Grandchild", "Spouse", "Caregiver", "Other"], false),
      Question(Age, "What is their approximate age?",
        ["60-69", "70-79", "80-89", "90+"], false),
      Question(HealthConditions,
        "Do they have any health conditions we should monitor? (Select all that apply)",
        ["Heart condition", "Diabetes", "Mobility issues", "Memory concerns", "None"], true)
    ]
  }

  /** Index of the last question. */
  const LastQuestion: int := |GetQuestions()| - 1

  datatype SetupAnswers = SetupAnswers(
    personName: string,
    relationship: string,
    age: string,
    healthConditions: seq<string>)

  const EmptyAnswers := SetupAnswers("", "", "", [])

  /** The recorded answer to a single-select question. */
  function Answer(a: SetupAnswers, f: Field): string
    requires f != HealthConditions
  {
    match f
    case PersonName => a.personName
    case Relationship => a.relationship
    case Age => a.age
  }

  /** The answers with single-select field `f` overwritten by `v`. */
  function WithAnswer(a: SetupAnswers, f: Field, v: string): (r: SetupAnswers)
    requires f != HealthConditions
    ensures Answer(r, f) == v
    ensures forall g :: g != HealthConditions && g != f ==> Answer(r, g) == Answer(a, g)
    ensures r.healthConditions == a.healthConditions
  {
    match f
    case PersonName => a.(personName := v)
    case Relationship => a.(relationship := v)
    case Age => a.(age := v)
  }

  // ---------------------------------------------------------------------------
  // The health-conditions toggle
  // ---------------------------------------------------------------------------

  predicate NoDuplicates(s: seq<string>) {
    forall i, j :: 0 <= i < j < |s| ==> s[i] != s[j]
  }

  /** `s` without its first occurrence of `x`. */
  function RemoveFirst(s: seq<string>, x: string): seq<string> {
    if s == [] then []
    else if s[0] == x then s[1..]
    else [s[0]] + RemoveFirst(s[1..], x)
  }

  /** The list after one click on option `x`: the first occurrence removed when
      present, otherwise `x` appended. */
  function Toggled(s: seq<string>, x: string): seq<string> {
    if x in s then RemoveFirst(s, x) else s + [x]
  }

  lemma {:induction false} RemoveFirstFacts(s: seq<string>, x: string)
    ensures x !in s ==> RemoveFirst(s, x) == s
    ensures x in s ==> |RemoveFirst(s, x)| == |s| - 1
    ensures forall y :: y != x ==> (y in RemoveFirst(s, x) <==> y in s)
    ensures NoDuplicates(s) ==> x !in RemoveFirst(s, x) && NoDuplicates(RemoveFirst(s, x))
  {
    if s == [] {
    } else if s[0] == x {
      assert s == [s[0]] + s[1..];
      if NoDuplicates(s) {
        forall k | 0 <= k < |s[1..]| ensures s[1..][k] != x {
          assert s[1..][k] == s[k + 1];
        }
        forall i, j | 0 <= i < j < |s[1..]| ensures s[1..][i] != s[1..][j] {
          assert s[1..][i] == s[i + 1] && s[1..][j] == s[j + 1];
        }
      }
    } else {
      var t := s[1..];
      assert s == [s[0]] + t;
      RemoveFirstFacts(t, x);
      var r := RemoveFirst(t, x);
      assert RemoveFirst(s, x) == [s[0]] + r;
      if NoDuplicates(s) {
        forall i, j | 0 <= i < j < |t| ensures t[i] != t[j] {
          assert t[i] == s[i + 1] && t[j] == s[j + 1];
        }
        assert s[0] !in t by {
          forall k | 0 <= k < |t| ensures t[k] != s[0] {
            assert t[k] == s[k + 1];
          }
        }
        assert s[0] !in r;
        forall i, j | 0 <= i < j < |[s[0]] + r| ensures ([s[0]] + r)[i] != ([s[0]] + r)[j] {
          if i == 0 {
            assert ([s[0]] + r)[j] == r[j - 1];
          } else {
            assert ([s[0]] + r)[i] == r[i - 1] && ([s[0]] + r)[j] == r[j - 1];
          }
        }
      }
    }
  }

  /** Removing the first occurrence by splicing at the first index where `x`
      sits is `RemoveFirst`. */
  lemma {:induction false} SpliceIsRemoveFirst(s: seq<string>, x: string, i: int)
    requires 0 <= i < |s| && s[i] == x && x !in s[..i]
    ensures s[..i] + s[i + 1..] == RemoveFirst(s, x)
  {
    if i == 0 {
      assert s[..0] + s[1..] == s[1..];
    } else {
      assert s[0] == s[..i][0];
      var t := s[1..];
      assert t[..i - 1] == s[1..i];
      assert x !in t[..i - 1] by {
        forall k | 0 <= k < i - 1 ensures t[k] != x {
          assert t[k] == s[..i][k + 1];
        }
      }
      SpliceIsRemoveFirst(t, x, i - 1);
      assert s[..i] + s[i + 1..] == [s[0]] + (t[..i - 1] + t[i..]);
    }
  }

  /** `RemoveFirst` undoes an append of a value the list did not hold. */
  lemma {:induction false} RemoveFirstAfterAppend(s: seq<string>, x: string)
    requires x !in s
    ensures RemoveFirst(s + [x], x) == s
  {
    if s == [] {
      assert [] + [x] == [x];
    } else {
      assert (s + [x])[0] == s[0];
      assert (s + [x])[1..] == s[1..] + [x];
      RemoveFirstAfterAppend(s[1..], x);
      assert s == [s[0]] + s[1..];
    }
  }

  /** The linear search behind `indexOf`: -1 when absent, else the first index. */
  method IndexOf(s: seq<string>, x: string) returns (i: int)
    ensures i == -1 <==> x !in s
    ensures i != -1 ==> 0 <= i < |s| && s[i] == x && x !in s[..i]
  {
    i := 0;
    while i < |s|
      invariant 0 <= i <= |s|
      invariant x !in s[..i]
    {
      if s[i] == x {
        return;
      }
      assert s[..i + 1] == s[..i] + [s[i]];
      i := i + 1;
    }
    assert s[..i] == s;
    i := -1;
  }

  /** One click on a health-condition option: copy the list, then splice out the
      first occurrence of the answer or push it. */
  method ToggleCondition(conditions: seq<string>, answer: string) returns (r: seq<string>)
    ensures r == Toggled(conditions, answer)
  {
    r := conditions;
    if answer in r {
      var i := IndexOf(r, answer);
      SpliceIsRemoveFirst(r, answer, i);
      r := r[..i] + r[i + 1..];
    } else {
      r := r + [answer];
    }
  }

  /** On a duplicate-free list a toggle is a set symmetric difference with {x},
      changes the length by exactly one, and keeps the list duplicate-free. */
  lemma ToggledIsSymmetricDifference(s: seq<string>, x: string)
    requires NoDuplicates(s)
    ensures forall y :: y in Toggled(s, x) <==> ((y in s) != (y == x))
    ensures |Toggled(s, x)| == if x in s then |s| - 1 else |s| + 1
    ensures NoDuplicates(Toggled(s, x))
  {
    RemoveFirstFacts(s, x);
    if x !in s {
      var t := s + [x];
      forall i, j | 0 <= i < j < |t| ensures t[i] != t[j] {
        if j == |s| {
          assert t[i] == s[i];
        } else {
          assert t[i] == s[i] && t[j] == s[j];
        }
      }
    }
  }

  /** Toggling an absent option twice restores the list exactly. */
  lemma ToggleAbsentTwice(s: seq<string>, x: string)
    requires x !in s
    ensures Toggled(Toggled(s, x), x) == s
  {
    assert x in s + [x];
    RemoveFirstAfterAppend(s, x);
  }

  /** Toggling a present option twice (on a duplicate-free list) restores
      membership but moves the option to the end. */
  lemma TogglePresentTwice(s: seq<string>, x: string)
    requires NoDuplicates(s) && x in s
    ensures Toggled(Toggled(s, x), x) == RemoveFirst(s, x) + [x]
    ensures forall y :: y in Toggled(Toggled(s, x), x) <==> y in s
  {
    RemoveFirstFacts(s, x);
  }

  // ---------------------------------------------------------------------------
  // The dashboard page state
  // ---------------------------------------------------------------------------

  /** The modal step; the page's TypeScript `ModalStep | null` is `Option<ModalStep>`. */
  datatype ModalStep = Searching | Devices | Questions | Connecting

  /** A scheduled `setTimeout` callback, holding what its closure captured when it
      was scheduled. The caller fires it later by calling `DiscoveryElapsed` or
      `ConnectElapsed` with the captured value. */
  datatype PendingTimer =
    | DiscoveryTimer(deviceType: Option<DeviceType>)
    | ConnectTimer(device: Option<FoundDevice>)

  /** The devices the discovery callback lists for a captured type: the "other"
      list when the type is null. */
  function DiscoveredFor(device: Option<DeviceType>): (r: seq<FoundDevice>)
    ensures |r| == 3
    ensures device == None ==> r == SampleDevices(Other)
    ensures device != None ==> r == SampleDevices(device.value)
  {
    SampleDevices(device.GetOr(Other))
  }

  /** The component state of the dashboard page and its wizard handlers. */
  class Dashboard {
    var showDeviceModal: bool
    var selectedDeviceType: Option<DeviceType>
    var modalStep: Option<ModalStep>
    var foundDevices: seq<FoundDevice>
    var selectedDevice: Option<FoundDevice>
    var currentQuestion: int
    var setupAnswers: SetupAnswers
    var isDeviceConnected: bool
    var connectedDevice: Option<FoundDevice>

    /** `currentQuestion` always indexes the question list, and no health
        condition is recorded twice. */
    ghost predicate Valid()
      reads this
    {
      && 0 <= currentQuestion <= LastQuestion
      && NoDuplicates(setupAnswers.healthConditions)
    }

    /** The field of the question on screen. */
    function CurrentField(): Field
      reads this
      requires Valid()
    {
      GetQuestions()[currentQuestion].field
    }

    /** The initial values of every piece of page state. */
    constructor ()
      ensures Valid()
      ensures !showDeviceModal && selectedDeviceType == None && modalStep == None
      ensures foundDevices == [] && selectedDevice == None
      ensures currentQuestion == 0 && setupAnswers == EmptyAnswers
      ensures !isDeviceConnected && connectedDevice == None
    {
      showDeviceModal := false;
      selectedDeviceType := None;
      modalStep := None;
      foundDevices := [];
      selectedDevice := None;
      currentQuestion := 0;
      setupAnswers := EmptyAnswers;
      isDeviceConnected := false;
      connectedDevice := None;
    }

    /** A "Connect ..." button: open the modal in the searching step with a fresh
        questionnaire and schedule discovery for `device`. */
    method OpenDeviceModal(device: Option<DeviceType>) returns (timer: PendingTimer)
      requires Valid()
      modifies this
      ensures Valid()
      ensures showDeviceModal && selectedDeviceType == device && modalStep == Some(Searching)
      ensures selectedDevice == None && currentQuestion == 0 && setupAnswers == EmptyAnswers
      ensures foundDevices == old(foundDevices)
      ensures isDeviceConnected == old(isDeviceConnected) && connectedDevice == old(connectedDevice)
      ensures timer == DiscoveryTimer(device)
    {
      selectedDeviceType := device;
      showDeviceModal := true;
      modalStep := Some(Searching);
      selectedDevice := None;
      currentQuestion := 0;
      setupAnswers := EmptyAnswers;
      timer := DiscoveryTimer(device);
    }

    /** The discovery timer fires: list the catalogue devices of the captured
        type and show them. Unguarded: it does this in any state, including after
        the modal was closed or reopened for another type. */
    method DiscoveryElapsed(device: Option<DeviceType>)
      requires Valid()
      modifies this
      ensures Valid()
      ensures foundDevices == DiscoveredFor(device) && modalStep == Some(Devices)
      ensures showDeviceModal == old(showDeviceModal) && selectedDeviceType == old(selectedDeviceType)
      ensures selectedDevice == old(selectedDevice) && currentQuestion == old(currentQuestion)
      ensures setupAnswers == old(setupAnswers)
      ensures isDeviceConnected == old(isDeviceConnected) && connectedDevice == old(connectedDevice)
    {
      foundDevices := SampleDevices(device.GetOr(Other));
      modalStep := Some(Devices);
    }

    /** The close or cancel button: hide the modal and forget the search. The
        questionnaire position, the answers and the connection are kept. */
    method CloseModal()
      requires Valid()
      modifies this
      ensures Valid()
      ensures !showDeviceModal && selectedDeviceType == None && modalStep == None
      ensures foundDevices == [] && selectedDevice == None
      ensures currentQuestion == old(currentQuestion) && setupAnswers == old(setupAnswers)
      ensures isDeviceConnected == old(isDeviceConnected) && connectedDevice == old(connectedDevice)
    {
      showDeviceModal := false;
      selectedDeviceType := None;
      modalStep := None;
      foundDevices := [];
      selectedDevice := None;
    }

    /** A click on a listed device: select it and start the questionnaire. */
    method HandleDeviceSelect(device: FoundDevice)
      requires Valid()
      modifies this
      ensures Valid()
      ensures selectedDevice == Some(device) && modalStep == Some(Questions) && currentQuestion == 0
      ensures showDeviceModal == old(showDeviceModal) && selectedDeviceType == old(selectedDeviceType)
      ensures foundDevices == old(foundDevices) && setupAnswers == old(setupAnswers)
      ensures isDeviceConnected == old(isDeviceConnected) && connectedDevice == old(connectedDevice)
    {
      selectedDevice := Some(device);
      modalStep := Some(Questions);
      currentQuestion := 0;
    }

    /** A click on an option of the current question. On the multi-select
        question it toggles the option in `healthConditions` and stays put; on a
        single-select question it records the answer in that question's field and
        moves to the next question, or, on the last one, to connecting. */
    method HandleAnswerSelect(answer: string) returns (timer: Option<PendingTimer>)
      requires Valid()
      modifies this
      ensures Valid()
      ensures old(CurrentField()) == HealthConditions ==>
        && setupAnswers == old(setupAnswers).(healthConditions := Toggled(old(setupAnswers.healthConditions), answer))
        && currentQuestion == old(currentQuestion) && modalStep == old(modalStep)
        && timer == None
      // The health conditions behave as a set: a click flips the option's membership.
      ensures old(CurrentField()) == HealthConditions ==>
        forall y :: y in setupAnswers.healthConditions <==>
          ((y in old(setupAnswers.healthConditions)) != (y == answer))
      ensures old(CurrentField()) != HealthConditions ==>
        && setupAnswers == WithAnswer(old(setupAnswers), old(CurrentField()), answer)
        && (old(currentQuestion) < LastQuestion ==>
              currentQuestion == old(currentQuestion) + 1 && modalStep == old(modalStep) && timer == None)
        && (old(currentQuestion) >= LastQuestion ==>
              && currentQuestion == old(currentQuestion) && modalStep == Some(Connecting)
              && timer == Some(ConnectTimer(old(selectedDevice))))
      // With this question list only the last question is multi-select, so a
      // single-select answer never reaches the connecting step.
      ensures timer == None
      ensures showDeviceModal == old(showDeviceModal) && selectedDeviceType == old(selectedDeviceType)
      ensures foundDevices == old(foundDevices) && selectedDevice == old(selectedDevice)
      ensures isDeviceConnected == old(isDeviceConnected) && connectedDevice == old(connectedDevice)
    {
      var questions := GetQuestions();
      var currentQ := questions[currentQuestion];
      if currentQ.field == HealthConditions {
        ToggledIsSymmetricDifference(setupAnswers.healthConditions, answer);
        var conditions := ToggleCondition(setupAnswers.healthConditions, answer);
        setupAnswers := setupAnswers.(healthConditions := conditions);
        timer := None;
      } else {
        setupAnswers := WithAnswer(setupAnswers, currentQ.field, answer);
        // Move to the next question, or finish; the finishing arm cannot be
        // reached with this question list.
        var nextQuestion, nextStep := currentQuestion, modalStep;
        if currentQuestion < |questions| - 1 {
          nextQuestion := currentQuestion + 1;
          timer := None;
        } else {
          nextStep := Some(Connecting);
          timer := Some(ConnectTimer(selectedDevice));
        }
        currentQuestion, modalStep := nextQuestion, nextStep;
      }
    }

    /** The "Continue" button: the next question, or connecting after the last. */
    method HandleNextQuestion() returns (timer: Option<PendingTimer>)
      requires Valid()
      modifies this
      ensures Valid()
      ensures old(currentQuestion) < LastQuestion ==>
        currentQuestion == old(currentQuestion) + 1 && modalStep == old(modalStep) && timer == None
      ensures old(currentQuestion) >= LastQuestion ==>
        && currentQuestion == old(currentQuestion) && modalStep == Some(Connecting)
        && timer == Some(ConnectTimer(old(selectedDevice)))
      ensures showDeviceModal == old(showDeviceModal) && selectedDeviceType == old(selectedDeviceType)
      ensures foundDevices == old(foundDevices) && selectedDevice == old(selectedDevice)
      ensures setupAnswers == old(setupAnswers)
      ensures isDeviceConnected == old(isDeviceConnected) && connectedDevice == old(connectedDevice)
    {
      var questions := GetQuestions();
      if currentQuestion < |questions| - 1 {
        currentQuestion := currentQuestion + 1;
        timer := None;
      } else {
        modalStep := Some(Connecting);
        timer := Some(ConnectTimer(selectedDevice));
      }
    }

    /** The connect timer fires: mark the captured device connected, then close
        the modal. Unguarded: it completes even if the modal was closed. */
    method ConnectElapsed(device: Option<FoundDevice>)
      requires Valid()
      modifies this
      ensures Valid()
      ensures isDeviceConnected && connectedDevice == device
      ensures !showDeviceModal && selectedDeviceType == None && modalStep == None
      ensures foundDevices == [] && selectedDevice == None
      ensures currentQuestion == old(currentQuestion) && setupAnswers == old(setupAnswers)
    {
      isDeviceConnected := true;
      connectedDevice := device;
      CloseModal();
    }
  }
}
