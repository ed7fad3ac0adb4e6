/** The client weighing station (app/client/page.tsx): a vehicle is weighed
    twice, the heavier reading is the gross weight and the lighter the tare,
    and the transaction details are filled in before the record is saved.
    `Session` and its transitions state the page's behaviour on values; the
    class `ClientPage` holds the component state and is specified by them. */
module WeighingStation {
  import opened Types

  // ---------------------------------------------------------------------
  // State
  // ---------------------------------------------------------------------

  /** The scale produces whole kilograms from 500 up to, not including, 50000. */
  const MinReading: int := 500
  const MaxReading: int := 50000

  predicate IsScaleReading(w: int) {
    MinReading <= w < MaxReading
  }

  /** The form: the five weights (null until captured) and the transaction
      details. `transactionType` is None while no direction is chosen. */
  datatype WeighingData = WeighingData(
    firstWeight: Option<int>,
    secondWeight: Option<int>,
    grossWeight: Option<int>,
    tareWeight: Option<int>,
    netWeight: Option<int>,
    ticketNumber: string,
    vehicleId: string,
    itemId: string,
    vendorId: string,
    transactionType: Option<RecordType>,
    driverName: string,
    itemDescription: string,
    notes: string)

  /** The all-empty form the page starts with and returns to after saving. */
  const EmptyWeighing: WeighingData :=
    WeighingData(None, None, None, None, None, "", "", "", "", None, "", "", "")

  /** Which of the two weighings is next. */
  datatype Step = FirstWeighing | SecondWeighing

  datatype Session = Session(data: WeighingData, step: Step)

  const InitialSession: Session := Session(EmptyWeighing, FirstWeighing)

  /** Whether an optional weight counts as present in a JavaScript condition:
      set and non-zero. */
  predicate Truthy(w: Option<int>) {
    w.Some? && w.value != 0
  }

  // ---------------------------------------------------------------------
  // Weight derivation
  // ---------------------------------------------------------------------

  datatype Weights = Weights(gross: int, tare: int, net: int)

  /** Gross is the larger reading, tare the smaller, net their difference. */
  function DeriveWeights(first: int, second: int): (w: Weights)
    ensures w.gross >= first && w.gross >= second && (w.gross == first || w.gross == second)
    ensures multiset{w.gross, w.tare} == multiset{first, second}
    ensures w.gross >= w.tare
    ensures w.net >= 0 && w.net + w.tare == w.gross
    ensures w.net == if first >= second then first - second else second - first
  {
    var gross := if first >= second then first else second;
    var tare := if first <= second then first else second;
    Weights(gross, tare, gross - tare)
  }

  /** The form with the five weights cleared and every detail kept. */
  function ClearWeights(d: WeighingData): WeighingData {
    d.(firstWeight := None, secondWeight := None, grossWeight := None, tareWeight := None, netWeight := None)
  }

  /** The page's invariant: readings come from the scale; step 1 has no
      weight; step 2 has the first; a second reading comes with the three
      derived weights, and without it there are none. */
  predicate Consistent(s: Session) {
    var d := s.data;
    && (d.firstWeight.Some? ==> IsScaleReading(d.firstWeight.value))
    && (d.secondWeight.Some? ==> IsScaleReading(d.secondWeight.value))
    && (s.step == FirstWeighing ==> d == ClearWeights(d))
    && (s.step == SecondWeighing ==> d.firstWeight.Some?)
    && (d.secondWeight.None? ==> d.grossWeight.None? && d.tareWeight.None? && d.netWeight.None?)
    && (d.secondWeight.Some? ==>
          && d.firstWeight.Some?
          && var w := DeriveWeights(d.firstWeight.value, d.secondWeight.value);
          && d.grossWeight == Some(w.gross)
          && d.tareWeight == Some(w.tare)
          && d.netWeight == Some(w.net))
  }

  lemma InitialConsistent()
    ensures Consistent(InitialSession)
    ensures !CanProceedToSave(InitialSession.data)
  {
  }

  // ---------------------------------------------------------------------
  // Transitions
  // ---------------------------------------------------------------------

  /** A capture with the scale's `reading`: step 1 stores the first
      weight and moves to step 2; step 2 stores the second weight and derives
      gross, tare and net from the two. The details never change. */
  function Capture(s: Session, reading: int): (r: Session)
    requires s.step == SecondWeighing ==> s.data.firstWeight.Some?
    ensures r.step == SecondWeighing
    ensures ClearWeights(r.data) == ClearWeights(s.data)
    ensures s.step == FirstWeighing ==> r.data == s.data.(firstWeight := Some(reading))
    ensures s.step == SecondWeighing ==>
      && r.data.firstWeight == s.data.firstWeight
      && r.data.secondWeight == Some(reading)
      && r.data.grossWeight.Some? && r.data.tareWeight.Some? && r.data.netWeight.Some?
      && multiset{r.data.grossWeight.value, r.data.tareWeight.value} == multiset{s.data.firstWeight.value, reading}
      && r.data.grossWeight.value >= r.data.tareWeight.value
      && r.data.netWeight.value == r.data.grossWeight.value - r.data.tareWeight.value >= 0
  {
    if s.step == FirstWeighing then
      Session(s.data.(firstWeight := Some(reading)), SecondWeighing)
    else
      var w := DeriveWeights(s.data.firstWeight.value, reading);
      Session(s.data.(secondWeight := Some(reading), grossWeight := Some(w.gross),
                      tareWeight := Some(w.tare), netWeight := Some(w.net)), SecondWeighing)
  }

  lemma CapturePreservesConsistency(s: Session, reading: int)
    requires Consistent(s) && IsScaleReading(reading)
    ensures Consistent(Capture(s, reading))
  {
  }

  /** A reset: back to step 1 with the weights cleared; the details stay. */
  function Reset(s: Session): (r: Session)
    ensures Consistent(r)
    ensures r.step == FirstWeighing
    ensures r.data == ClearWeights(r.data) && ClearWeights(r.data) == ClearWeights(s.data)
  {
    Session(ClearWeights(s.data), FirstWeighing)
  }

  /** Resetting after a capture gives what resetting before it would have:
      a capture touches nothing that a reset keeps. */
  lemma ResetUndoesCapture(s: Session, reading: int)
    requires s.step == SecondWeighing ==> s.data.firstWeight.Some?
    ensures Reset(Capture(s, reading)) == Reset(s)
    ensures Reset(Reset(s)) == Reset(s)
  {
  }

  /** Two captures from a fresh step 1 give gross = the larger reading,
      tare = the smaller and net = their difference; then no further capture
      is offered, and the record can be saved exactly when the details are
      complete. */
  lemma TwoCaptures(s: Session, first: int, second: int)
    requires Consistent(s) && s.step == FirstWeighing
    requires IsScaleReading(first) && IsScaleReading(second)
    ensures var r := Capture(Capture(s, first), second);
      && Consistent(r)
      && r.data.grossWeight == Some(if first >= second then first else second)
      && r.data.tareWeight == Some(if first >= second then second else first)
      && r.data.netWeight == Some(if first >= second then first - second else second - first)
      && !CaptureButtonEnabled(r, false)
      && !SpaceCaptures(r, false)
      && (CanProceedToSave(r.data) <==> DetailsComplete(s.data))
  {
    CapturePreservesConsistency(s, first);
    CapturePreservesConsistency(Capture(s, first), second);
  }

  // ---------------------------------------------------------------------
  // Guards
  // ---------------------------------------------------------------------

  /** The current step's weight has not been read yet. */
  predicate WeightPending(s: Session) {
    if s.step == FirstWeighing then s.data.firstWeight.None? else s.data.secondWeight.None?
  }

  /** The Space shortcut captures when no reading is in progress and the
      current step's weight is still unset (focus outside text fields). */
  predicate SpaceCaptures(s: Session, isWeighing: bool): (b: bool)
    ensures b ==> !isWeighing
    ensures Consistent(s) ==> (b <==> !isWeighing && WeightPending(s))
  {
    && !isWeighing
    && ((s.step == FirstWeighing && !Truthy(s.data.firstWeight))
        || (s.step == SecondWeighing && !Truthy(s.data.secondWeight)))
  }

  /** The capture button is enabled unless a reading is in progress or the
      second weight is already there. */
  predicate CaptureButtonEnabled(s: Session, isWeighing: bool): (b: bool)
    ensures b ==> !isWeighing
    ensures Consistent(s) ==> (b <==> !isWeighing && WeightPending(s))
  {
    !(isWeighing || (s.step == SecondWeighing && s.data.secondWeight.Some?))
  }

  /** Escape and the reset button act when a weight has been captured; on a
      consistent state, exactly when the first weight is recorded. */
  predicate ResetOffered(s: Session): (b: bool)
    ensures Consistent(s) ==> (b <==> s.data.firstWeight.Some?)
  {
    Truthy(s.data.firstWeight) || Truthy(s.data.secondWeight)
  }

  /** On every reachable state the shortcut and the button agree, although one
      tests falsiness and the other null. */
  lemma CaptureGuardsAgree(s: Session, isWeighing: bool)
    requires Consistent(s)
    ensures SpaceCaptures(s, isWeighing) <==> CaptureButtonEnabled(s, isWeighing)
  {
  }

  /** Reset is offered exactly in step 2. */
  lemma ResetOfferedInSecondStep(s: Session)
    requires Consistent(s)
    ensures ResetOffered(s) <==> s.step == SecondWeighing
  {
  }

  // ---------------------------------------------------------------------
  // Validation
  // ---------------------------------------------------------------------

  /** The five transaction details the record needs. */
  predicate DetailsComplete(d: WeighingData) {
    d.ticketNumber != "" && d.vehicleId != "" && d.itemId != "" && d.vendorId != "" && d.transactionType.Some?
  }

  /** The five details are complete exactly when every requirement but the
      weighing is met. */
  lemma DetailsAreRequirements(d: WeighingData)
    ensures DetailsComplete(d) <==> forall r :: r != Weighing ==> !Unmet(d, r)
  {
    if !DetailsComplete(d) {
      assert Unmet(d, Ticket) || Unmet(d, VehicleChoice) || Unmet(d, ItemChoice)
          || Unmet(d, VendorChoice) || Unmet(d, TypeChoice);
    }
  }

  /** Saving is allowed when a gross weight is present and every detail is
      filled in: every requirement except the weighing is met. */
  predicate CanProceedToSave(d: WeighingData): (ok: bool)
    ensures ok <==> d.grossWeight.Some? && forall r :: r != Weighing ==> !Unmet(d, r)
    ensures ok <==> d.grossWeight.Some? && DetailsComplete(d)
  {
    DetailsAreRequirements(d);
    && d.grossWeight.Some?
    && d.ticketNumber != ""
    && d.vehicleId != ""
    && d.itemId != ""
    && d.vendorId != ""
    && d.transactionType.Some?
  }

  /** The six things the record needs, in the order the message lists them. */
  datatype Requirement = Weighing | Ticket | VehicleChoice | ItemChoice | VendorChoice | TypeChoice

  function Label(r: Requirement): string {
    match r
    case Weighing => "Complete weighing process"
    case Ticket => "Ticket Number"
    case VehicleChoice => "Vehicle"
    case ItemChoice => "Item"
    case VendorChoice => "Vendor"
    case TypeChoice => "Transaction Type"
  }

  function Rank(r: Requirement): nat {
    match r
    case Weighing => 0
    case Ticket => 1
    case VehicleChoice => 2
    case ItemChoice => 3
    case VendorChoice => 4
    case TypeChoice => 5
  }

  /** The message's own test of each requirement (falsiness, as the page writes it). */
  predicate Unmet(d: WeighingData, r: Requirement) {
    match r
    case Weighing => !Truthy(d.grossWeight)
    case Ticket => d.ticketNumber == ""
    case VehicleChoice => d.vehicleId == ""
    case ItemChoice => d.itemId == ""
    case VendorChoice => d.vendorId == ""
    case TypeChoice => d.transactionType.None?
  }

  /** Every requirement, in message order. */
  const AllRequirements: seq<Requirement> := [Weighing, Ticket, VehicleChoice, ItemChoice, VendorChoice, TypeChoice]

  /** The unmet requirements among the first `k` of `AllRequirements`, in order. */
  function UnmetUpTo(d: WeighingData, k: nat): seq<Requirement>
    requires k <= |AllRequirements|
  {
    if k == 0 then [] else UnmetUpTo(d, k - 1) + IfUnmet(d, AllRequirements[k - 1])
  }

  /** The one-element list of `r` when it is unmet, the empty list otherwise. */
  function IfUnmet(d: WeighingData, r: Requirement): seq<Requirement> {
    if Unmet(d, r) then [r] else []
  }

  /** One check of the message: appending the `k`-th requirement when it is
      unmet extends the list of the first `k` unmet ones by one step. */
  lemma CheckStep(d: WeighingData, k: nat, before: seq<Requirement>, after: seq<Requirement>)
    requires k < |AllRequirements| && before == UnmetUpTo(d, k)
    requires after == if Unmet(d, AllRequirements[k]) then before + [AllRequirements[k]] else before
    ensures after == UnmetUpTo(d, k + 1)
  {
  }

  /** The list the message is made of. */
  function MissingRequirements(d: WeighingData): seq<Requirement> {
    UnmetUpTo(d, |AllRequirements|)
  }

  /** The label of each requirement, in the same order. */
  function Labels(rs: seq<Requirement>): (labels: seq<string>)
    ensures |labels| == |rs|
    ensures forall i {:trigger Label(rs[i])} :: 0 <= i < |rs| ==> labels[i] == Label(rs[i])
  {
    if rs == [] then []
    else
      var front := rs[..|rs| - 1];
      assert forall i :: 0 <= i < |front| ==> Label(front[i]) == Label(rs[i]);
      Labels(front) + [Label(rs[|rs| - 1])]
  }

  /** The total length of some strings. */
  function TotalLength(parts: seq<string>): nat {
    if parts == [] then 0 else |parts[0]| + TotalLength(parts[1..])
  }

  /** The parts one after another with `sep` between neighbours (their
      positions are given by `JoinPart` and `JoinGap`). */
  function Join(parts: seq<string>, sep: string): (s: string)
    ensures |s| == TotalLength(parts) + (if parts == [] then 0 else (|parts| - 1) * |sep|)
    ensures |parts| > 0 ==> |parts[0]| <= |s| && s[..|parts[0]|] == parts[0]
  {
    if parts == [] then ""
    else if |parts| == 1 then parts[0]
    else parts[0] + sep + Join(parts[1..], sep)
  }

  /** Where part `i` starts in the joined string: after the parts before it,
      each followed by one separator. */
  function Offset(parts: seq<string>, sep: string, i: nat): nat
    requires i < |parts|
  {
    if i == 0 then 0 else |parts[0]| + |sep| + Offset(parts[1..], sep, i - 1)
  }

  /** Each part starts one part and one separator after the previous one. */
  lemma {:induction false} OffsetStep(parts: seq<string>, sep: string, i: nat)
    requires i + 1 < |parts|
    ensures Offset(parts, sep, i + 1) == Offset(parts, sep, i) + |parts[i]| + |sep|
  {
    if i > 0 {
      OffsetStep(parts[1..], sep, i - 1);
    }
  }

  /** A slice of the second half of a concatenation. */
  lemma SliceAfter(prefix: string, rest: string, lo: nat, hi: nat)
    requires lo <= hi <= |rest|
    ensures (prefix + rest)[|prefix| + lo..|prefix| + hi] == rest[lo..hi]
  {
  }

  /** The joined string holds part `i` at `Offset(parts, sep, i)` and ends
      with the last part. */
  lemma {:induction false} JoinPart(parts: seq<string>, sep: string, i: nat)
    requires i < |parts|
    ensures Offset(parts, sep, i) + |parts[i]| <= |Join(parts, sep)|
    ensures i + 1 == |parts| ==> |Join(parts, sep)| == Offset(parts, sep, i) + |parts[i]|
    ensures Join(parts, sep)[Offset(parts, sep, i)..Offset(parts, sep, i) + |parts[i]|] == parts[i]
  {
    if |parts| > 1 && i > 0 {
      var rest := Join(parts[1..], sep);
      var head := parts[0] + sep;
      assert Join(parts, sep) == head + rest;
      JoinPart(parts[1..], sep, i - 1);
      var o := Offset(parts[1..], sep, i - 1);
      assert parts[1..][i - 1] == parts[i];
      SliceAfter(head, rest, o, o + |parts[i]|);
    }
  }

  /** The separator fills the gap after every part but the last. */
  lemma {:induction false} JoinGap(parts: seq<string>, sep: string, i: nat)
    requires i + 1 < |parts|
    ensures Offset(parts, sep, i) + |parts[i]| + |sep| <= |Join(parts, sep)|
    ensures Join(parts, sep)[Offset(parts, sep, i) + |parts[i]|..Offset(parts, sep, i) + |parts[i]| + |sep|] == sep
  {
    var rest := Join(parts[1..], sep);
    if i > 0 {
      var head := parts[0] + sep;
      assert Join(parts, sep) == head + rest;
      JoinGap(parts[1..], sep, i - 1);
      var o := Offset(parts[1..], sep, i - 1);
      assert parts[1..][i - 1] == parts[i];
      SliceAfter(head, rest, o + |parts[i]|, o + |parts[i]| + |sep|);
    } else {
      assert Join(parts, sep) == parts[0] + (sep + rest);
      SliceAfter(parts[0], sep + rest, 0, |sep|);
      assert (sep + rest)[0..|sep|] == sep;
    }
  }

  /** The validation line under the save button: empty when nothing is
      missing, and otherwise "Missing: " followed by the labels (their
      positions are given by `MessagePart` and `MessageGap`). */
  function ValidationMessage(d: WeighingData): (m: string)
    ensures m == "" <==> MissingRequirements(d) == []
    ensures m != "" ==> |m| >= 9 && m[..9] == "Missing: "
  {
    MessageText(Labels(MissingRequirements(d)))
  }

  /** The line for a list of labels. */
  function MessageText(labels: seq<string>): string {
    if |labels| > 0 then "Missing: " + Join(labels, ", ") else ""
  }

  /** Label `i` sits after "Missing: " at its offset in the join; the last
      label ends the line. */
  lemma TextPart(labels: seq<string>, i: nat)
    requires i < |labels|
    ensures var o := 9 + Offset(labels, ", ", i);
      var m := MessageText(labels);
      && o + |labels[i]| <= |m|
      && (i + 1 == |labels| ==> |m| == o + |labels[i]|)
      && m[o..o + |labels[i]|] == labels[i]
  {
    JoinPart(labels, ", ", i);
    var o := Offset(labels, ", ", i);
    SliceAfter("Missing: ", Join(labels, ", "), o, o + |labels[i]|);
  }

  /** Every label but the last is followed by ", ". */
  lemma TextGap(labels: seq<string>, i: nat)
    requires i + 1 < |labels|
    ensures var o := 9 + Offset(labels, ", ", i) + |labels[i]|;
      var m := MessageText(labels);
      o + 2 <= |m| && m[o..o + 2] == ", "
  {
    JoinGap(labels, ", ", i);
    var o := Offset(labels, ", ", i) + |labels[i]|;
    SliceAfter("Missing: ", Join(labels, ", "), o, o + 2);
  }

  /** The label of the `i`-th missing requirement (entry `i` of `Labels`) sits
      at its offset after "Missing: "; the last one ends the message. */
  lemma MessagePart(d: WeighingData, i: nat)
    requires i < |MissingRequirements(d)|
    ensures var labels := Labels(MissingRequirements(d));
      9 + Offset(labels, ", ", i) + |labels[i]| <= |ValidationMessage(d)|
    ensures var labels := Labels(MissingRequirements(d));
      i + 1 == |labels| ==> |ValidationMessage(d)| == 9 + Offset(labels, ", ", i) + |labels[i]|
    ensures var labels := Labels(MissingRequirements(d));
      var o := 9 + Offset(labels, ", ", i);
      ValidationMessage(d)[o..o + |labels[i]|] == labels[i]
  {
    TextPart(Labels(MissingRequirements(d)), i);
  }

  /** Every missing requirement's label but the last is followed by ", ". */
  lemma MessageGap(d: WeighingData, i: nat)
    requires i + 1 < |MissingRequirements(d)|
    ensures var labels := Labels(MissingRequirements(d));
      var o := 9 + Offset(labels, ", ", i) + |labels[i]|;
      var m := ValidationMessage(d);
      o + 2 <= |m| && m[o..o + 2] == ", "
  {
    TextGap(Labels(MissingRequirements(d)), i);
  }

  lemma {:induction false} UnmetUpToExactly(d: WeighingData, k: nat)
    requires k <= |AllRequirements|
    ensures forall r :: r in UnmetUpTo(d, k) <==> Unmet(d, r) && Rank(r) < k
    ensures forall i, j :: 0 <= i < j < |UnmetUpTo(d, k)| ==> Rank(UnmetUpTo(d, k)[i]) < Rank(UnmetUpTo(d, k)[j])
  {
    if k > 0 {
      UnmetUpToExactly(d, k - 1);
      var u := UnmetUpTo(d, k - 1);
      assert Rank(AllRequirements[k - 1]) == k - 1;
      forall r | Rank(r) == k - 1 ensures r == AllRequirements[k - 1] {
      }
      forall i | 0 <= i < |u| ensures Rank(u[i]) < k - 1 {
        assert u[i] in u;
      }
    }
  }

  /** The message lists a requirement exactly when it is unmet, each once, in
      the fixed order weighing, ticket, vehicle, item, vendor, type. */
  lemma MissingRequirementsExactly(d: WeighingData)
    ensures forall r :: r in MissingRequirements(d) <==> Unmet(d, r)
    ensures forall i, j :: 0 <= i < j < |MissingRequirements(d)| ==>
      Rank(MissingRequirements(d)[i]) < Rank(MissingRequirements(d)[j])
  {
    UnmetUpToExactly(d, |AllRequirements|);
  }

  /** While the gross weight is absent or positive, the message is empty
      exactly when the record can be saved. */
  lemma ValidationAgreesWithSave(d: WeighingData)
    requires d.grossWeight.None? || d.grossWeight.value > 0
    ensures ValidationMessage(d) == "" <==> CanProceedToSave(d)
  {
    MissingRequirementsExactly(d);
    var missing := MissingRequirements(d);
    if missing == [] {
      assert !Unmet(d, Weighing) && !Unmet(d, Ticket) && !Unmet(d, VehicleChoice);
      assert !Unmet(d, ItemChoice) && !Unmet(d, VendorChoice) && !Unmet(d, TypeChoice);
    } else {
      assert missing[0] in missing;
      assert |ValidationMessage(d)| > 0;
    }
  }

  /** The two tests differ on a gross weight of 0: the message asks for a
      weighing while saving is allowed. */
  lemma ZeroGrossDisagrees()
    ensures var d := EmptyWeighing.(grossWeight := Some(0), ticketNumber := "T-1", vehicleId := "V1",
                                    itemId := "I1", vendorId := "S1", transactionType := Some(Incoming));
      CanProceedToSave(d) && ValidationMessage(d) != ""
  {
    var d := EmptyWeighing.(grossWeight := Some(0), ticketNumber := "T-1", vehicleId := "V1",
                            itemId := "I1", vendorId := "S1", transactionType := Some(Incoming));
    MissingRequirementsExactly(d);
    assert Weighing in MissingRequirements(d);
  }

  /** A reachable state never has a gross weight of 0, so there the message
      and the save button always agree. */
  lemma ReachableValidationAgrees(s: Session)
    requires Consistent(s)
    ensures ValidationMessage(s.data) == "" <==> CanProceedToSave(s.data)
  {
    ValidationAgreesWithSave(s.data);
  }

  // ---------------------------------------------------------------------
  // Vehicle selection
  // ---------------------------------------------------------------------

  /** The first vehicle with that id, if any. */
  function FindVehicle(vehicles: seq<Vehicle>, id: string): (r: Option<Vehicle>)
    ensures r.None? <==> forall v :: v in vehicles ==> v.id != id
    ensures r.Some? ==> exists k :: 0 <= k < |vehicles| && vehicles[k] == r.value && r.value.id == id
                                   && forall j :: 0 <= j < k ==> vehicles[j].id != id
  {
    if vehicles == [] then None
    else if vehicles[0].id == id then Some(vehicles[0])
    else
      var r := FindVehicle(vehicles[1..], id);
      if r.Some? then
        ghost var k :| 0 <= k < |vehicles[1..]| && vehicles[1..][k] == r.value && r.value.id == id
                       && forall j :: 0 <= j < k ==> vehicles[1..][j].id != id;
        assert vehicles[k + 1] == r.value;
        r
      else
        r
  }

  /** The driver name after a vehicle is chosen: the driver of the first
      vehicle with that id when there is one and its driver is non-empty,
      and the previous name otherwise. */
  function DriverAfterSelect(vehicles: seq<Vehicle>, id: string, previous: string): (r: string)
    ensures forall k :: 0 <= k < |vehicles| && vehicles[k].id == id && (forall j :: 0 <= j < k ==> vehicles[j].id != id)
              ==> r == (if vehicles[k].driver != "" then vehicles[k].driver else previous)
    ensures (forall v :: v in vehicles ==> v.id != id) ==> r == previous
    ensures r == previous || (exists v :: v in vehicles && v.id == id && v.driver == r)
    ensures r == "" ==> previous == ""
  {
    var selected := FindVehicle(vehicles, id);
    if selected.Some? && selected.value.driver != "" then selected.value.driver else previous
  }

  // ---------------------------------------------------------------------
  // The page component
  // ---------------------------------------------------------------------

  /** Keys the page listens for. */
  datatype Key = Space | CtrlP | CtrlS | Escape | OtherKey

  /** The six checks of the validation message, pushing each unmet
      requirement in turn. */
  method CollectMissing(d: WeighingData) returns (missing: seq<Requirement>)
    ensures missing == MissingRequirements(d)
  {
    missing := [];
    // `k` counts the checks done so far and `before` is the list before the current one.
    ghost var k: nat, before := 0, missing;
    if !Truthy(d.grossWeight) { missing := missing + [Weighing]; }
    CheckStep(d, k, before, missing);
    k, before := k + 1, missing;
    if d.ticketNumber == "" { missing := missing + [Ticket]; }
    CheckStep(d, k, before, missing);
    k, before := k + 1, missing;
    if d.vehicleId == "" { missing := missing + [VehicleChoice]; }
    CheckStep(d, k, before, missing);
    k, before := k + 1, missing;
    if d.itemId == "" { missing := missing + [ItemChoice]; }
    CheckStep(d, k, before, missing);
    k, before := k + 1, missing;
    if d.vendorId == "" { missing := missing + [VendorChoice]; }
    CheckStep(d, k, before, missing);
    k, before := k + 1, missing;
    if d.transactionType.None? { missing := missing + [TypeChoice]; }
    CheckStep(d, k, before, missing);
  }

  class ClientPage {
    var data: WeighingData
    var currentStep: Step
    var isWeighing: bool

    function Current(): Session
      reads this
    {
      Session(data, currentStep)
    }

    ghost predicate Valid()
      reads this
    {
      Consistent(Current())
    }

    constructor ()
      ensures Valid() && Current() == InitialSession && !isWeighing
    {
      data := EmptyWeighing;
      currentStep := FirstWeighing;
      isWeighing := false;
    }

    /** Capture one scale reading (the reading replaces the simulated scale). */
    method CaptureWeight(reading: int)
      requires Valid() && IsScaleReading(reading)
      modifies this
      ensures Valid()
      ensures Current() == Capture(old(Current()), reading)
      ensures !isWeighing
    {
      isWeighing := true;
      if currentStep == FirstWeighing {
        data := data.(firstWeight := Some(reading));
        currentStep := SecondWeighing;
      } else {
        var w := DeriveWeights(data.firstWeight.value, reading);
        data := data.(secondWeight := Some(reading), grossWeight := Some(w.gross),
                      tareWeight := Some(w.tare), netWeight := Some(w.net));
      }
      isWeighing := false;
      CapturePreservesConsistency(old(Current()), reading);
    }

    method ResetWeighing()
      modifies this
      ensures Valid()
      ensures Current() == Reset(old(Current()))
      ensures isWeighing == old(isWeighing)
    {
      data := data.(firstWeight := None, secondWeight := None, grossWeight := None,
                    tareWeight := None, netWeight := None);
      currentStep := FirstWeighing;
    }

    /** Save (the record goes nowhere) and start over with an empty form. */
    method SaveRecord()
      modifies this
      ensures Valid()
      ensures Current() == InitialSession
      ensures isWeighing == old(isWeighing)
    {
      data := EmptyWeighing;
      currentStep := FirstWeighing;
    }

    method GetValidationMessage() returns (message: string)
      ensures message == ValidationMessage(data)
    {
      var missing := CollectMissing(data);
      var labels := Labels(missing);
      message := if |labels| > 0 then "Missing: " + Join(labels, ", ") else "";
    }

    method SetTicketNumber(value: string)
      requires Valid()
      modifies this
      ensures Valid()
      ensures data == old(data).(ticketNumber := value)
      ensures currentStep == old(currentStep) && isWeighing == old(isWeighing)
    {
      data := data.(ticketNumber := value);
    }

    method SetTransactionType(value: RecordType)
      requires Valid()
      modifies this
      ensures Valid()
      ensures data == old(data).(transactionType := Some(value))
      ensures currentStep == old(currentStep) && isWeighing == old(isWeighing)
    {
      data := data.(transactionType := Some(value));
    }

    /** Choosing a vehicle also fills in its driver, when it has one. */
    method SelectVehicle(vehicles: seq<Vehicle>, value: string)
      requires Valid()
      modifies this
      ensures Valid()
      ensures data == old(data).(vehicleId := value, driverName := DriverAfterSelect(vehicles, value, old(data).driverName))
      ensures currentStep == old(currentStep) && isWeighing == old(isWeighing)
    {
      var selectedVehicle := FindVehicle(vehicles, value);
      data := data.(vehicleId := value,
                    driverName := if selectedVehicle.Some? && selectedVehicle.value.driver != ""
                                  then selectedVehicle.value.driver else data.driverName);
    }

    method SetItem(value: string)
      requires Valid()
      modifies this
      ensures Valid()
      ensures data == old(data).(itemId := value)
      ensures currentStep == old(currentStep) && isWeighing == old(isWeighing)
    {
      data := data.(itemId := value);
    }

    method SetVendor(value: string)
      requires Valid()
      modifies this
      ensures Valid()
      ensures data == old(data).(vendorId := value)
      ensures currentStep == old(currentStep) && isWeighing == old(isWeighing)
    {
      data := data.(vendorId := value);
    }

    method SetDriverName(value: string)
      requires Valid()
      modifies this
      ensures Valid()
      ensures data == old(data).(driverName := value)
      ensures currentStep == old(currentStep) && isWeighing == old(isWeighing)
    {
      data := data.(driverName := value);
    }

    method SetNotes(value: string)
      requires Valid()
      modifies this
      ensures Valid()
      ensures data == old(data).(notes := value)
      ensures currentStep == old(currentStep) && isWeighing == old(isWeighing)
    {
      data := data.(notes := value);
    }

    /** The keyboard shortcuts. `inTextField` says whether the key was typed
        into an input or text area; `reading` is what the scale would return. */
    method HandleKeyPress(key: Key, inTextField: bool, reading: int)
      requires Valid() && IsScaleReading(reading)
      modifies this
      ensures Valid()
      ensures key == Space && !inTextField && SpaceCaptures(old(Current()), old(isWeighing))
              ==> Current() == Capture(old(Current()), reading)
      ensures key == CtrlS && CanProceedToSave(old(data)) ==> Current() == InitialSession
      ensures key == Escape && ResetOffered(old(Current())) ==> Current() == Reset(old(Current()))
      ensures !(key == Space && !inTextField && SpaceCaptures(old(Current()), old(isWeighing)))
              && !(key == CtrlS && CanProceedToSave(old(data)))
              && !(key == Escape && ResetOffered(old(Current())))
              ==> Current() == old(Current())
      ensures isWeighing == old(isWeighing)
    {
      match key
      case Space =>
        if !inTextField && SpaceCaptures(Current(), isWeighing) {
          CaptureWeight(reading);
        }
      case CtrlP =>
      case CtrlS =>
        if CanProceedToSave(data) {
          SaveRecord();
        }
      case Escape =>
        if ResetOffered(Current()) {
          ResetWeighing();
        }
      case OtherKey =>
    }
  }
}
