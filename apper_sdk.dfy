/** What the services backed by the Apper SDK receive from it, and the two
    ways they read it: leniently (src/services/api/videoTrainingScriptService.js
    turns every failure into an empty list, null or false) and strictly
    (src/services/api/salesPageService.js and src/services/api/chargeService.js
    throw). The SDK itself is not modelled: an answer is an input. */
module ApperSdk {
  import opened JsValues
  import opened Tables

  /** One entry of `response.results`. */
  datatype RecordResult = RecordResult(success: bool, message: Value, data: Value)

  /** A response; `results` is None when the response carries no
      (or a falsy) `results`. */
  datatype Response = Response(success: bool, message: Value, data: Value, results: Option<seq<RecordResult>>)

  /** How a call ended: with a response, or with a thrown value (the SDK
      missing from the page, a network failure, ...). */
  datatype Call = Answered(response: Response) | Failed(reason: Value)

  function Succeeded(): RecordResult -> bool {
    (r: RecordResult) => r.success
  }

  function Unsucceeded(): RecordResult -> bool {
    (r: RecordResult) => !r.success
  }

  /** `new Error(message)`: the message as a string, "" for undefined. */
  function ErrorFrom(message: Value): Thrown {
    Error(if message.Undefined? then "" else ToJsString(message))
  }

  /** The call came back with `success` set. */
  predicate Accepted(call: Call) {
    call.Answered? && call.response.success
  }

  // ---------------------------------------------------------------------
  // The lenient reading

  /** A list read: the records, or an empty list on any failure. */
  function LenientList(call: Call): (r: Value)
    ensures !Accepted(call) ==> r == Arr([])
    ensures Accepted(call) ==> r == Or(call.response.data, Arr([]))
    ensures Truthy(r)
  {
    if Accepted(call) then Or(call.response.data, Arr([])) else Arr([])
  }

  /** A single-record read: the record, or null on any failure. */
  function LenientRecord(call: Call): (r: Value)
    ensures !Accepted(call) ==> r == Null
    ensures Accepted(call) ==> r == call.response.data
  {
    if Accepted(call) then call.response.data else Null
  }

  /** A create or update: the data of the first successful result, or null
      when the call failed, carried no results, or none succeeded. */
  function LenientWrite(call: Call): (r: Value)
    ensures (!Accepted(call) || call.response.results.None?
             || FindIndex(call.response.results.value, Succeeded()).None?) ==> r == Null
    ensures Accepted(call) && call.response.results.Some? ==>
      var rs := call.response.results.value;
      forall i :: 0 <= i < |rs| && rs[i].success && (forall j :: 0 <= j < i ==> !rs[j].success) ==> r == rs[i].data
  {
    if !Accepted(call) || call.response.results.None? then Null
    else
      var successes := Filter(call.response.results.value, Succeeded());
      FirstPassesIsFiltered(call.response.results.value, Succeeded());
      if |successes| > 0 then successes[0].data else Null
  }

  /** A delete: true exactly when some result succeeded. */
  function LenientDelete(call: Call): (r: bool)
    ensures r <==> (Accepted(call) && call.response.results.Some?
      && exists i :: 0 <= i < |call.response.results.value| && call.response.results.value[i].success)
  {
    if !Accepted(call) || call.response.results.None? then false
    else
      var rs := call.response.results.value;
      FilterNonEmptyIffSome(rs, Succeeded());
      |Filter(rs, Succeeded())| > 0
  }

  // ---------------------------------------------------------------------
  // The strict reading

  /** A list read: the records (an empty list for none); a refusal throws
      the response's message, a thrown call rethrows. */
  function StrictList(call: Call): (r: Completion<Value>)
    ensures call.Failed? ==> r == Throw(Foreign(call.reason))
    ensures call.Answered? && !call.response.success ==> r == Throw(ErrorFrom(call.response.message))
    ensures Accepted(call) ==> r == Return(Or(call.response.data, Arr([]))) && Truthy(r.value)
  {
    match call
    case Failed(reason) => Throw(Foreign(reason))
    case Answered(response) =>
      if !response.success then Throw(ErrorFrom(response.message))
      else Return(Or(response.data, Arr([])))
  }

  /** A single-record read: the record; failures throw as for lists. */
  function StrictRecord(call: Call): (r: Completion<Value>)
    ensures call.Failed? ==> r == Throw(Foreign(call.reason))
    ensures call.Answered? && !call.response.success ==> r == Throw(ErrorFrom(call.response.message))
    ensures Accepted(call) ==> r == Return(call.response.data)
  {
    match call
    case Failed(reason) => Throw(Foreign(reason))
    case Answered(response) =>
      if !response.success then Throw(ErrorFrom(response.message))
      else Return(response.data)
  }

  /** A create or update: the data of the first result when every result
      succeeded; `failure` is thrown when any failed, and reading the
      first of no results throws a TypeError. Without results it is null. */
  function StrictWrite(call: Call, failure: string): (r: Completion<Value>)
    ensures r.Return? <==> (Accepted(call)
      && (call.response.results.None?
          || (|call.response.results.value| > 0 && forall i :: 0 <= i < |call.response.results.value| ==> call.response.results.value[i].success)))
    ensures Accepted(call) && call.response.results.None? ==> r == Return(Null)
    ensures Accepted(call) && call.response.results.Some? ==>
      var rs := call.response.results.value;
      ((exists i :: 0 <= i < |rs| && !rs[i].success) <==> r == Throw(Error(failure)))
      && (r.Return? ==> r.value == rs[0].data)
      && (rs == [] ==> r == Throw(TypeError))
    ensures r.Throw? && r != Throw(Error(failure)) && r != Throw(TypeError) ==>
      call.Failed? || !call.response.success
  {
    match call
    case Failed(reason) => Throw(Foreign(reason))
    case Answered(response) =>
      if !response.success then Throw(ErrorFrom(response.message))
      else match response.results
        case None => Return(Null)
        case Some(rs) =>
          FilterNonEmptyIffSome(rs, Unsucceeded());
          if |Filter(rs, Unsucceeded())| > 0 then Throw(Error(failure))
          else if |rs| == 0 then Throw(TypeError)
          else Return(rs[0].data)
  }

  /** A delete: true when every result succeeded, false when the response
      had no results; `failure` is thrown when any result failed. */
  function StrictDelete(call: Call, failure: string): (r: Completion<bool>)
    ensures r == Return(true) <==> (Accepted(call) && call.response.results.Some?
      && forall i :: 0 <= i < |call.response.results.value| ==> call.response.results.value[i].success)
    ensures r == Return(false) <==> Accepted(call) && call.response.results.None?
    ensures Accepted(call) ==> (r == Throw(Error(failure)) <==> (call.response.results.Some?
      && exists i :: 0 <= i < |call.response.results.value| && !call.response.results.value[i].success))
    ensures call.Failed? ==> r == Throw(Foreign(call.reason))
    ensures call.Answered? && !call.response.success ==> r == Throw(ErrorFrom(call.response.message))
  {
    match call
    case Failed(reason) => Throw(Foreign(reason))
    case Answered(response) =>
      if !response.success then Throw(ErrorFrom(response.message))
      else match response.results
        case None => Return(false)
        case Some(rs) =>
          FilterNonEmptyIffSome(rs, Unsucceeded());
          if |Filter(rs, Unsucceeded())| > 0 then Throw(Error(failure)) else Return(true)
  }

  // ---------------------------------------------------------------------
  // The two readings side by side

  /** Where the strict reading returns a created or updated record from the
      results, the lenient one returns the same record. */
  lemma StrictWriteAgreesWithLenient(call: Call, failure: string)
    requires StrictWrite(call, failure).Return? && call.Answered? && call.response.results.Some?
    ensures LenientWrite(call) == StrictWrite(call, failure).value
  {
  }

  /** A partly failed write: the strict reading throws, the lenient one
      hands out the first record that was written. */
  lemma PartialWriteReadings(call: Call, failure: string, i: nat)
    requires Accepted(call) && call.response.results.Some?
    requires i < |call.response.results.value| && !call.response.results.value[i].success
    requires exists j :: 0 <= j < |call.response.results.value| && call.response.results.value[j].success
    ensures StrictWrite(call, failure) == Throw(Error(failure))
    ensures LenientWrite(call) == call.response.results.value[FindIndex(call.response.results.value, Succeeded()).value].data
  {
  }

  /** An accepted delete with an empty result list: the strict reading
      reports true, the lenient one false. */
  lemma EmptyDeleteReadings(message: Value, data: Value, failure: string)
    ensures var call := Answered(Response(true, message, data, Some([])));
      StrictDelete(call, failure) == Return(true) && !LenientDelete(call)
  {
  }

  // ---------------------------------------------------------------------
  // Helpers about filtered results

  lemma {:induction false} FilterNonEmptyIffSome<T>(s: seq<T>, p: T -> bool)
    ensures |Filter(s, p)| > 0 <==> exists i :: 0 <= i < |s| && p(s[i])
    decreases |s|
  {
    if |s| > 0 {
      FilterNonEmptyIffSome(s[1..], p);
      if !p(s[0]) {
        assert forall i :: 1 <= i < |s| ==> s[i] == s[1..][i - 1];
        if exists i :: 0 <= i < |s| && p(s[i]) {
          var i :| 0 <= i < |s| && p(s[i]);
          assert s[1..][i - 1] == s[i];
        }
      }
    }
  }

  /** The head of a non-empty filter is the first element that passes. */
  lemma {:induction false} FirstPassesIsFiltered<T>(s: seq<T>, p: T -> bool)
    ensures FindIndex(s, p).Some? <==> |Filter(s, p)| > 0
    ensures FindIndex(s, p).Some? ==> Filter(s, p)[0] == s[FindIndex(s, p).value]
    decreases |s|
  {
    FilterNonEmptyIffSome(s, p);
    if |s| > 0 && !p(s[0]) {
      FirstPassesIsFiltered(s[1..], p);
    }
  }
}
