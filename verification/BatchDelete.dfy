/** Deleting arbitrarily many keys in sequential batches. */
module BatchDelete {
  import opened Basics
  import opened Plan
  import opened Sessions

  const MAX_DELETE_KEYS: nat := 1_000

  type Key = Bytes

  /** One per-key failure of a response; the store may leave the key out. */
  datatype FailureEntry = FailureEntry(key: Option<Key>, code: Option<string>, message: Option<string>)

  datatype Failure = Failure(key: Key, code: Option<string>, message: Option<string>)

  datatype Reply =
    | Failed(error: Error)
    | Output(deleted: seq<Option<Key>>, errors: seq<FailureEntry>)

  datatype Deleted = Deleted(requestCount: nat, deletedKeys: seq<Key>, failures: seq<Failure>)

  datatype BatchError = BatchError(error: Error, partial: Deleted)

  /** `Waiting` says that the next batch is sent and not answered yet. */
  datatype Outcome = Waiting | Finished(result: Result<Deleted, BatchError>)

  const NOTHING := Deleted(0, [], [])

  // ----- Batches -----

  /** `chunks(1000)`. */
  function Batches(keys: seq<Key>): seq<seq<Key>> {
    if keys == [] then []
    else if |keys| <= MAX_DELETE_KEYS then [keys]
    else [keys[..MAX_DELETE_KEYS]] + Batches(keys[MAX_DELETE_KEYS..])
  }

  function Flat(batches: seq<seq<Key>>): seq<Key> {
    if batches == [] then [] else batches[0] + Flat(batches[1..])
  }

  /** The batches are non-empty, at most 1,000 long, as few as possible, and together the keys in
      their order. */
  lemma {:induction false} BatchesSplitTheKeys(keys: seq<Key>)
    ensures forall i :: 0 <= i < |Batches(keys)| ==> 1 <= |Batches(keys)[i]| <= MAX_DELETE_KEYS
    ensures Flat(Batches(keys)) == keys
    ensures |Batches(keys)| == CeilDiv(|keys|, MAX_DELETE_KEYS)
    decreases |keys|
  {
    if keys == [] {
    } else if |keys| <= MAX_DELETE_KEYS {
      assert Batches(keys)[1..] == [];
      assert keys + [] == keys;
    } else {
      var rest := keys[MAX_DELETE_KEYS..];
      BatchesSplitTheKeys(rest);
      assert Batches(keys)[1..] == Batches(rest);
      assert keys[..MAX_DELETE_KEYS] + rest == keys;
    }
  }

  // ----- One response -----

  function KeysIn(deleted: seq<Option<Key>>): seq<Key> {
    if deleted == [] then []
    else KeysIn(deleted[..|deleted| - 1]) + match deleted[|deleted| - 1] case None => [] case Some(key) => [key]
  }

  /** The entries before the first one without a key. */
  function Named(errors: seq<FailureEntry>): seq<Failure> {
    if errors == [] || errors[0].key.None? then []
    else [Failure(errors[0].key.value, errors[0].code, errors[0].message)] + Named(errors[1..])
  }

  predicate AllNamed(errors: seq<FailureEntry>) {
    forall i :: 0 <= i < |errors| ==> errors[i].key.Some?
  }

  /** What a response adds. */
  function Plus(result: Deleted, output: Reply): Deleted
    requires output.Output?
  {
    Deleted(result.requestCount + 1,
            result.deletedKeys + KeysIn(output.deleted),
            result.failures + Named(output.errors))
  }

  /** What `batches` requests answered by `tape` amount to, on top of `result`. */
  function Answered(batches: nat, tape: seq<Reply>, result: Deleted): Outcome
    decreases |tape|
  {
    if batches == 0 then Finished(Ok(result))
    else if tape == [] then Waiting
    else
      match tape[0]
      case Failed(error) => Finished(Err(BatchError(error, result)))
      case Output(_, errors) =>
        if AllNamed(errors) then Answered(batches - 1, tape[1..], Plus(result, tape[0]))
        else Finished(Err(BatchError(Service, Plus(result, tape[0]))))
  }

  /** How many requests are sent meanwhile. */
  function Asked(batches: nat, tape: seq<Reply>): nat
    decreases |tape|
  {
    if batches == 0 then 0
    else if tape == [] || tape[0].Failed? || !AllNamed(tape[0].errors) then 1
    else 1 + Asked(batches - 1, tape[1..])
  }

  predicate AllValid(keys: seq<Key>) {
    forall i :: 0 <= i < |keys| ==> ValidKey(keys[i])
  }

  /** One round of the loop: the next batch is sent and request number `r` is answered, or not yet. */
  lemma {:induction false} OneRound(batches: nat, tape: seq<Reply>, r: nat, result: Deleted)
    requires batches >= 1 && r <= |tape|
    ensures var outcome, asked := Answered(batches, tape[r..], result), Asked(batches, tape[r..]);
            if r == |tape| then outcome == Waiting && asked == 1
            else
              match tape[r]
              case Failed(error) => outcome == Finished(Err(BatchError(error, result))) && asked == 1
              case Output(_, errors) =>
                var more := Plus(result, tape[r]);
                if AllNamed(errors) then
                  && outcome == Answered(batches - 1, tape[r + 1..], more)
                  && asked == 1 + Asked(batches - 1, tape[r + 1..])
                else outcome == Finished(Err(BatchError(Service, more))) && asked == 1
  {
    hide AllNamed, Plus;
    if r < |tape| {
      assert tape[r..][0] == tape[r] && tape[r..][1..] == tape[r + 1..];
    }
  }

  /** All keys are validated before anything is sent; each batch is one request; the first failure
      keeps what was taken in so far. */
  method DeleteObjects(keys: seq<Key>, tape: seq<Reply>) returns (outcome: Outcome, sent: seq<seq<Key>>)
    ensures !AllValid(keys) ==> sent == [] && outcome == Finished(Err(BatchError(InvalidKey, NOTHING)))
    ensures AllValid(keys) ==>
              && outcome == Answered(|Batches(keys)|, tape, NOTHING)
              && |sent| == Asked(|Batches(keys)|, tape) && sent <= Batches(keys)
  {
    hide Batches, Answered, Asked, KeysIn, Named, AllNamed;
    sent := [];
    for i := 0 to |keys|
      invariant forall j :: 0 <= j < i ==> ValidKey(keys[j])
    {
      if !ValidKey(keys[i]) {
        return Finished(Err(BatchError(InvalidKey, NOTHING))), [];
      }
    }
    var result, rest := NOTHING, keys;
    assert tape[0..] == tape;
    while rest != []
      invariant sent + Batches(rest) == Batches(keys) && |sent| <= |tape|
      invariant Answered(|Batches(rest)|, tape[|sent|..], result) == Answered(|Batches(keys)|, tape, NOTHING)
      invariant |sent| + Asked(|Batches(rest)|, tape[|sent|..]) == Asked(|Batches(keys)|, tape)
      decreases |rest|
    {
      var size := if |rest| <= MAX_DELETE_KEYS then |rest| else MAX_DELETE_KEYS;
      var batch, request := rest[..size], |sent|;
      FirstBatch(rest, size);
      OneRound(|Batches(rest)|, tape, request, result);
      sent, rest := sent + [batch], rest[size..];
      if request == |tape| {
        return Waiting, sent;
      }
      if tape[request].Failed? {
        return Finished(Err(BatchError(tape[request].error, result))), sent;
      }
      var output := tape[request];
      var failures, keyless := AddFailures(result.failures, output.errors);
      result := Deleted(result.requestCount + 1, result.deletedKeys + KeysIn(output.deleted), failures);
      if keyless {
        return Finished(Err(BatchError(Service, result))), sent;
      }
    }
    NoRound(tape[|sent|..], result);
    return Finished(Ok(result)), sent;
  }

  lemma {:induction false} NoRound(tape: seq<Reply>, result: Deleted)
    ensures Batches([]) == [] && Answered(0, tape, result) == Finished(Ok(result)) && Asked(0, tape) == 0
  {
  }

  lemma {:induction false} FirstBatch(keys: seq<Key>, size: nat)
    requires keys != [] && size == if |keys| <= MAX_DELETE_KEYS then |keys| else MAX_DELETE_KEYS
    ensures Batches(keys) == [keys[..size]] + Batches(keys[size..])
  {
    if size == |keys| {
      assert keys[..size] == keys && keys[size..] == [];
    }
  }

  /** The per-key failures of one response, up to one that names no key. */
  method AddFailures(before: seq<Failure>, errors: seq<FailureEntry>) returns (failures: seq<Failure>, keyless: bool)
    ensures failures == before + Named(errors)
    ensures keyless == !AllNamed(errors)
  {
    failures := before;
    for i := 0 to |errors|
      invariant failures + Named(errors[i..]) == before + Named(errors)
      invariant forall j :: 0 <= j < i ==> errors[j].key.Some?
    {
      assert errors[i..][0] == errors[i] && errors[i..][1..] == errors[i + 1..];
      if errors[i].key.None? {
        return failures, true;
      }
      failures := failures + [Failure(errors[i].key.value, errors[i].code, errors[i].message)];
    }
    return failures, false;
  }

  // ----- Conservation -----

  function DeletedIn(outputs: seq<Reply>): seq<Key>
    requires forall i :: 0 <= i < |outputs| ==> outputs[i].Output?
  {
    if outputs == [] then [] else DeletedIn(outputs[..|outputs| - 1]) + KeysIn(outputs[|outputs| - 1].deleted)
  }

  function FailuresIn(outputs: seq<Reply>): seq<Failure>
    requires forall i :: 0 <= i < |outputs| ==> outputs[i].Output?
  {
    if outputs == [] then [] else FailuresIn(outputs[..|outputs| - 1]) + Named(outputs[|outputs| - 1].errors)
  }

  /** What was taken in, as the loop accumulates it. */
  function Tally(outputs: seq<Reply>): Deleted
    requires forall i :: 0 <= i < |outputs| ==> outputs[i].Output?
  {
    Deleted(|outputs|, DeletedIn(outputs), FailuresIn(outputs))
  }

  /** The responses up to number `k` were all taken in completely. */
  predicate TakenIn(tape: seq<Reply>, k: nat) {
    k <= |tape| && forall i :: 0 <= i < k ==> tape[i].Output? && AllNamed(tape[i].errors)
  }

  // ----- What a result reports, entry by entry -----

  /** How many of the first `k` entries name a key. */
  function NamedBefore(deleted: seq<Option<Key>>, k: nat): nat
    requires k <= |deleted|
  {
    if k == 0 then 0 else NamedBefore(deleted, k - 1) + if deleted[k - 1].Some? then 1 else 0
  }

  /** The keys are those of the entries that name one, each in its turn, no other and none twice. */
  ghost predicate KeysInOrder(deleted: seq<Option<Key>>, keys: seq<Key>) {
    && |keys| == NamedBefore(deleted, |deleted|)
    && (forall i :: 0 <= i < |deleted| && deleted[i].Some? ==>
                      NamedBefore(deleted, i) < |keys| && keys[NamedBefore(deleted, i)] == deleted[i].value)
    && forall key: Key :: multiset(keys)[key] == multiset(deleted)[Some(key)]
  }

  /** Failure number i is entry number i, up to the first entry without a key. */
  ghost predicate FailuresInOrder(errors: seq<FailureEntry>, failures: seq<Failure>) {
    && |failures| <= |errors|
    && (forall i :: 0 <= i < |failures| ==>
                      && errors[i].key == Some(failures[i].key)
                      && errors[i].code == failures[i].code && errors[i].message == failures[i].message)
    && (|failures| < |errors| ==> errors[|failures|].key.None?)
  }

  /** All entries of the `deleted` lists, and all of the `errors` lists, one response after the other. */
  function AllDeleted(outputs: seq<Reply>): seq<Option<Key>>
    requires forall i :: 0 <= i < |outputs| ==> outputs[i].Output?
  {
    if outputs == [] then [] else AllDeleted(outputs[..|outputs| - 1]) + outputs[|outputs| - 1].deleted
  }

  function AllErrors(outputs: seq<Reply>): seq<FailureEntry>
    requires forall i :: 0 <= i < |outputs| ==> outputs[i].Output?
  {
    if outputs == [] then [] else AllErrors(outputs[..|outputs| - 1]) + outputs[|outputs| - 1].errors
  }

  /** The result says exactly what these responses say. */
  ghost predicate Reports(outputs: seq<Reply>, result: Deleted) {
    && (forall i :: 0 <= i < |outputs| ==> outputs[i].Output?)
    && result.requestCount == |outputs|
    && KeysInOrder(AllDeleted(outputs), result.deletedKeys)
    && FailuresInOrder(AllErrors(outputs), result.failures)
  }

  lemma {:induction false} KeysInCount(deleted: seq<Option<Key>>)
    ensures |KeysIn(deleted)| == NamedBefore(deleted, |deleted|)
    ensures forall key: Key :: multiset(KeysIn(deleted))[key] == multiset(deleted)[Some(key)]
  {
    if deleted != [] {
      var rest := deleted[..|deleted| - 1];
      KeysInCount(rest);
      SameBefore(rest, deleted, |rest|);
      assert deleted == rest + [deleted[|rest|]];
    }
  }

  lemma {:induction false} SameBefore(a: seq<Option<Key>>, b: seq<Option<Key>>, k: nat)
    requires k <= |a| <= |b| && a == b[..|a|]
    ensures NamedBefore(a, k) == NamedBefore(b, k)
  {
    if k > 0 { SameBefore(a, b, k - 1); }
  }

  lemma {:induction false} KeyAtItsTurn(deleted: seq<Option<Key>>, i: nat)
    requires i < |deleted| && deleted[i].Some?
    ensures NamedBefore(deleted, i) < |KeysIn(deleted)| && KeysIn(deleted)[NamedBefore(deleted, i)] == deleted[i].value
  {
    hide NamedBefore;
    var rest := deleted[..|deleted| - 1];
    KeysInLength(rest);
    if i < |rest| {
      SameBefore(rest, deleted, i);
      KeyAtItsTurn(rest, i);
    } else {
      SameBefore(rest, deleted, |rest|);
    }
  }

  lemma {:induction false} KeysInLength(deleted: seq<Option<Key>>)
    ensures |KeysIn(deleted)| == NamedBefore(deleted, |deleted|)
  {
    KeysInCount(deleted);
  }

  lemma {:induction false} KeysInAreInOrder(deleted: seq<Option<Key>>)
    ensures KeysInOrder(deleted, KeysIn(deleted))
  {
    KeysInCount(deleted);
    forall i | 0 <= i < |deleted| && deleted[i].Some?
      ensures NamedBefore(deleted, i) < |KeysIn(deleted)|
      ensures KeysIn(deleted)[NamedBefore(deleted, i)] == deleted[i].value
    {
      KeyAtItsTurn(deleted, i);
    }
  }

  lemma {:induction false} NamedAreInOrder(errors: seq<FailureEntry>)
    ensures FailuresInOrder(errors, Named(errors))
  {
    if errors != [] && errors[0].key.Some? {
      NamedAreInOrder(errors[1..]);
      assert forall i :: 0 <= i < |errors[1..]| ==> errors[1..][i] == errors[i + 1];
    }
  }

  lemma {:induction false} KeysInConcat(a: seq<Option<Key>>, b: seq<Option<Key>>)
    ensures KeysIn(a + b) == KeysIn(a) + KeysIn(b)
    decreases |b|
  {
    if b == [] {
      assert a + b == a;
    } else {
      var rest := b[..|b| - 1];
      assert (a + b)[..|a + b| - 1] == a + rest;
      KeysInConcat(a, rest);
    }
  }

  lemma {:induction false} NamedConcat(a: seq<FailureEntry>, b: seq<FailureEntry>)
    requires AllNamed(a)
    ensures Named(a + b) == Named(a) + Named(b)
    decreases |a|
  {
    if a == [] {
      assert a + b == b;
    } else {
      assert (a + b)[0] == a[0] && (a + b)[1..] == a[1..] + b;
      NamedConcat(a[1..], b);
    }
  }

  lemma {:induction false} OneMoreOutput(tape: seq<Reply>, k: nat)
    requires k < |tape| && forall i :: 0 <= i <= k ==> tape[i].Output?
    ensures DeletedIn(tape[..k + 1]) == DeletedIn(tape[..k]) + KeysIn(tape[k].deleted)
    ensures FailuresIn(tape[..k + 1]) == FailuresIn(tape[..k]) + Named(tape[k].errors)
    ensures AllDeleted(tape[..k + 1]) == AllDeleted(tape[..k]) + tape[k].deleted
    ensures AllErrors(tape[..k + 1]) == AllErrors(tape[..k]) + tape[k].errors
  {
    hide KeysIn, Named;
    assert tape[..k + 1][..k] == tape[..k];
  }

  lemma {:induction false} NoOutput(tape: seq<Reply>)
    ensures DeletedIn(tape[..0]) == KeysIn(AllDeleted(tape[..0]))
    ensures FailuresIn(tape[..0]) == Named(AllErrors(tape[..0]))
    ensures AllNamed(AllErrors(tape[..0]))
  {
  }

  lemma {:induction false} TallyOverAll(tape: seq<Reply>, k: nat)
    requires k <= |tape| && (forall i :: 0 <= i < k ==> tape[i].Output?) && (k > 0 ==> TakenIn(tape, k - 1))
    ensures DeletedIn(tape[..k]) == KeysIn(AllDeleted(tape[..k]))
    ensures FailuresIn(tape[..k]) == Named(AllErrors(tape[..k]))
    ensures TakenIn(tape, k) ==> AllNamed(AllErrors(tape[..k]))
  {
    hide KeysIn, Named, DeletedIn, FailuresIn, AllDeleted, AllErrors;
    if k == 0 {
      NoOutput(tape);
    } else {
      TallyOverAll(tape, k - 1);
      OneMoreOutput(tape, k - 1);
      KeysInConcat(AllDeleted(tape[..k - 1]), tape[k - 1].deleted);
      NamedConcat(AllErrors(tape[..k - 1]), tape[k - 1].errors);
    }
  }

  /** What the loop accumulated is exactly what the responses say; the last may be taken in up to an entry
      without a key only. */
  lemma {:induction false} TallyReports(tape: seq<Reply>, k: nat)
    requires k <= |tape| && (forall i :: 0 <= i < k ==> tape[i].Output?) && (k > 0 ==> TakenIn(tape, k - 1))
    ensures Reports(tape[..k], Tally(tape[..k]))
  {
    hide KeysIn, Named, KeysInOrder, FailuresInOrder, DeletedIn, FailuresIn, AllDeleted, AllErrors;
    TallyOverAll(tape, k);
    KeysInAreInOrder(AllDeleted(tape[..k]));
    NamedAreInOrder(AllErrors(tape[..k]));
  }

  /** What the caller gets, in terms of the responses alone. */
  ghost predicate Conserves(batches: nat, tape: seq<Reply>, outcome: Outcome, asked: nat) {
    match outcome
    case Waiting => TakenIn(tape, |tape|) && asked == |tape| + 1 <= batches
    case Finished(Ok(result)) => TakenIn(tape, batches) && asked == batches && Reports(tape[..batches], result)
    case Finished(Err(failure)) =>
      && 1 <= asked <= batches && asked <= |tape| && TakenIn(tape, asked - 1)
      && if tape[asked - 1].Failed? then
           failure.error == tape[asked - 1].error && Reports(tape[..asked - 1], failure.partial)
         else
           !AllNamed(tape[asked - 1].errors) && failure.error == Service && Reports(tape[..asked], failure.partial)
  }

  lemma {:induction false} OneMoreReply(tape: seq<Reply>, k: nat)
    requires TakenIn(tape, k) && k < |tape| && tape[k].Output?
    ensures Plus(Tally(tape[..k]), tape[k]) == Tally(tape[..k + 1])
  {
    assert tape[..k + 1][..k] == tape[..k];
  }

  /** After `k` responses were taken in, the rest of the loop conserves them and what follows. */
  lemma {:induction false} RestConserves(batches: nat, tape: seq<Reply>, k: nat)
    requires k <= batches && TakenIn(tape, k)
    ensures Conserves(batches, tape,
                      Answered(batches - k, tape[k..], Tally(tape[..k])), k + Asked(batches - k, tape[k..]))
    decreases |tape| - k
  {
    hide Tally, Plus, Reports;
    TallyReports(tape, k);
    if k < batches && k < |tape| {
      assert tape[k..][0] == tape[k] && tape[k..][1..] == tape[k + 1..];
      if tape[k].Output? {
        OneMoreReply(tape, k);
        TallyReports(tape, k + 1);
        if AllNamed(tape[k].errors) {
          RestConserves(batches, tape, k + 1);
        }
      }
    }
  }

  /** On success every batch took exactly one request and the result is exactly what the responses
      say; if request k + 1 fails, the partial result is exactly what the first k responses say. */
  lemma {:induction false} NothingIsLost(keys: seq<Key>, tape: seq<Reply>)
    ensures var batches := |Batches(keys)|;
            && batches == CeilDiv(|keys|, MAX_DELETE_KEYS)
            && Conserves(batches, tape, Answered(batches, tape, NOTHING), Asked(batches, tape))
  {
    BatchesSplitTheKeys(keys);
    RestConserves(|Batches(keys)|, tape, 0);
    assert tape[0..] == tape && tape[..0] == [];
  }
}
