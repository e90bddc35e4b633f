/** The batched send loop of `send_bulk_emails`: the recipient list is cut into batches of
    fifteen; each batch is announced, gets its own relay session, and every recipient in it
    gets one send attempt whose failure is logged without stopping the batch; a pause
    follows every batch. */
module Dispatch {
  import opened Common
  import opened Tracking
  import opened Recipients
  import opened Message

  const BatchSize: nat := 15
  const PauseSeconds: nat := 2

  /** What `sendmail` is handed: the sender, the recipient list and the message. */
  datatype Envelope = Envelope(from: string, to: seq<string>, message: Mime)

  /** The mail relay, seen from the script: whether the session for a batch number
      (connect, STARTTLS, login) comes up, and whether the n-th `sendmail` call of the run
      (counting from 0) goes through. */
  datatype Relay = Relay(opens: nat -> bool, accepts: nat -> bool)

  /** Everything the run depends on besides the sheet. */
  datatype Environment = Environment(md5: Digest, images: Images, relay: Relay)

  /** The run's log. `Aborted` marks a session that did not come up: the exception leaves
      `send_bulk_emails` and nothing after it happens. */
  datatype Event =
    | BatchStart(number: nat, size: nat)
    | Sent(to: string)
    | Failed(to: string)
    | Sleep(seconds: nat)
    | Aborted(number: nat)

  predicate IsAttempt(e: Event)
  {
    e.Sent? || e.Failed?
  }

  predicate IsSleep(e: Event)
  {
    e.Sleep?
  }

  predicate IsBatchStart(e: Event)
  {
    e.BatchStart?
  }

  /** What `sendmail` is handed for one recipient. */
  function EnvelopeFor(r: Recipient, env: Environment): Envelope
  {
    Envelope(EmailAddress, [r.email], EmailMessage(r.email, r.name, env.md5, env.images))
  }

  /** One send attempt, the `index`-th of the run. */
  function Outcome(r: Recipient, index: nat, env: Environment): (e: Event)
    ensures (e.Sent? || e.Failed?) && e.to == r.email
    ensures e.Sent? <==> env.relay.accepts(index)
  {
    if env.relay.accepts(index) then Sent(r.email) else Failed(r.email)
  }

  /** The attempts for `batch`, whose first recipient is the `start`-th of the run. */
  function Attempts(batch: seq<Recipient>, start: nat, env: Environment): (r: seq<Event>)
    ensures |r| == |batch|
    decreases |batch|
  {
    if batch == [] then []
    else Attempts(batch[..|batch| - 1], start, env) + [Outcome(batch[|batch| - 1], start + |batch| - 1, env)]
  }

  /** The log from the batch starting at index `i` onwards: `i` walks `range(0, total, 15)`. */
  function RunFrom(rs: seq<Recipient>, i: nat, env: Environment): seq<Event>
    decreases |rs| - i
  {
    if i >= |rs| then []
    else
      var batch := rs[i..Min(i + BatchSize, |rs|)];
      var number := i / BatchSize + 1;
      [BatchStart(number, |batch|)] +
      if !env.relay.opens(number) then [Aborted(number)]
      else Attempts(batch, i, env) + [Sleep(PauseSeconds)] + RunFrom(rs, i + BatchSize, env)
  }

  function Run(rs: seq<Recipient>, env: Environment): seq<Event>
  {
    RunFrom(rs, 0, env)
  }

  // ---------------------------------------------------------------------------------------
  // The loops

  /** `send_bulk_emails`: load the recipients, then the nested batch loops. */
  method SendBulkEmails(sheet: Sheet, env: Environment) returns (log: seq<Event>)
    ensures log == Run(Loaded(sheet.rows, sheet.hasNameColumn), env)
  {
    var recipients := LoadRecipients(sheet);
    log := SendAll(recipients, env);
  }

  /** The outer loop over `range(0, total, 15)`. */
  method SendAll(recipients: seq<Recipient>, env: Environment) returns (log: seq<Event>)
    ensures log == Run(recipients, env)
  {
    var total := |recipients|;
    log := [];
    var i: nat := 0;
    while i < total
      invariant log + RunFrom(recipients, i, env) == Run(recipients, env)
      decreases total - i
    {
      var batch := recipients[i..Min(i + BatchSize, total)];
      var number := i / BatchSize + 1;
      ghost var before := log;
      log := log + [BatchStart(number, |batch|)];
      if !env.relay.opens(number) {
        log := log + [Aborted(number)];
        LogAborted(before, recipients, i, env);
        return;
      }
      var events := SendBatch(batch, i, env);
      log := log + events + [Sleep(PauseSeconds)];
      LogNext(before, recipients, i, env);
      i := i + BatchSize;
    }
    assert log + [] == log;
  }

  /** The log after a batch whose session did not come up. */
  lemma LogAborted(log: seq<Event>, rs: seq<Recipient>, i: nat, env: Environment)
    requires i < |rs| && !env.relay.opens(i / BatchSize + 1)
    ensures log + [BatchStart(i / BatchSize + 1, |rs[i..Min(i + BatchSize, |rs|)]|)] + [Aborted(i / BatchSize + 1)]
            == log + RunFrom(rs, i, env)
  {
    RunFromStep(rs, i, env);
  }

  /** The log after a batch that was sent. */
  lemma LogNext(log: seq<Event>, rs: seq<Recipient>, i: nat, env: Environment)
    requires i < |rs| && env.relay.opens(i / BatchSize + 1)
    ensures var batch := rs[i..Min(i + BatchSize, |rs|)];
      log + [BatchStart(i / BatchSize + 1, |batch|)] + Attempts(batch, i, env) + [Sleep(PauseSeconds)]
      + RunFrom(rs, i + BatchSize, env) == log + RunFrom(rs, i, env)
  {
    RunFromStep(rs, i, env);
  }

  /** How the log continues from batch start `i`. */
  lemma RunFromStep(rs: seq<Recipient>, i: nat, env: Environment)
    requires i < |rs|
    ensures var batch := rs[i..Min(i + BatchSize, |rs|)];
      var number := i / BatchSize + 1;
      RunFrom(rs, i, env) ==
        if !env.relay.opens(number) then [BatchStart(number, |batch|), Aborted(number)]
        else [BatchStart(number, |batch|)] + Attempts(batch, i, env) + [Sleep(PauseSeconds)] + RunFrom(rs, i + BatchSize, env)
  {
  }

  /** The inner loop: one attempt per recipient of the batch, in order; a refused message
      is logged and the loop goes on. */
  method SendBatch(batch: seq<Recipient>, start: nat, env: Environment) returns (events: seq<Event>)
    ensures events == Attempts(batch, start, env)
  {
    events := [];
    var j := 0;
    while j < |batch|
      invariant 0 <= j <= |batch|
      invariant events == Attempts(batch[..j], start, env)
    {
      var event := SendOne(batch[j], start + j, env);
      AttemptsStep(batch, j, start, env);
      events := events + [event];
      j := j + 1;
    }
    assert batch[..j] == batch;
  }

  lemma AttemptsStep(batch: seq<Recipient>, j: nat, start: nat, env: Environment)
    requires j < |batch|
    ensures Attempts(batch[..j + 1], start, env) == Attempts(batch[..j], start, env) + [Outcome(batch[j], start + j, env)]
  {
    assert batch[..j + 1][..j] == batch[..j];
  }

  /** The body of the inner loop: compose the message, hand it to the relay, log the
      verdict. */
  method SendOne(r: Recipient, index: nat, env: Environment) returns (event: Event)
    ensures event == Outcome(r, index, env)
  {
    var envelope := Compose(r, env);
    if env.relay.accepts(index) {
      event := Sent(envelope.to[0]);
    } else {
      event := Failed(envelope.to[0]);
    }
  }

  /** `create_email_message` and the arguments of `sendmail`. */
  method Compose(r: Recipient, env: Environment) returns (envelope: Envelope)
    ensures envelope == EnvelopeFor(r, env)
  {
    var msg := CreateEmailMessage(r.email, r.name, env.md5, env.images);
    envelope := Envelope(EmailAddress, [r.email], msg.Tree());
  }

  // ---------------------------------------------------------------------------------------
  // What is sent

  /** Each envelope goes from the campaign address to its recipient alone, and its message
      is addressed to the same recipient and carries that recipient's tracking links. */
  lemma EnvelopeAddressed(r: Recipient, env: Environment)
    ensures var e := EnvelopeFor(r, env);
      var links := BuildTracking(r.email, env.md5);
      e.from == EmailAddress && e.to == [r.email] &&
      HeaderValue(e.message.headers, "From") == Some(EmailAddress) &&
      HeaderValue(e.message.headers, "To") == Some(r.email) &&
      HtmlPart(e.message).Some? && Contains(HtmlPart(e.message).value, Href(links.trackingUrl)) &&
      PlainPart(e.message).Some? && Contains(PlainPart(e.message).value, links.trackingUrl)
  {
    MessageLayout(r.email, r.name, env.md5, env.images);
    MessageCarriesTracking(r.email, r.name, env.md5, env.images);
  }

  // ---------------------------------------------------------------------------------------
  // Batches

  /** The recipient list cut into consecutive slices of `BatchSize`, the last one possibly
      shorter: a reference for the slicing by `range(0, total, 15)`. */
  function Batches<T>(xs: seq<T>): seq<seq<T>>
    decreases |xs|
  {
    if xs == [] then [] else [xs[..Min(BatchSize, |xs|)]] + Batches(xs[Min(BatchSize, |xs|)..])
  }

  /** Putting the batches back together gives the list. */
  lemma {:induction false} BatchesFlatten<T>(xs: seq<T>)
    ensures Concatenation(Batches(xs)) == xs
    decreases |xs|
  {
    if xs != [] {
      var n := Min(BatchSize, |xs|);
      BatchesFlatten(xs[n..]);
      assert Batches(xs)[1..] == Batches(xs[n..]);
      assert xs[..n] + xs[n..] == xs;
    }
  }

  /** ceil(N / 15) batches; each is non-empty and holds at most fifteen, and only the last
      may hold fewer; batch k is the slice starting at 15 * k. */
  lemma {:induction false} BatchesShape<T>(xs: seq<T>)
    ensures |Batches(xs)| == (|xs| + BatchSize - 1) / BatchSize
    ensures forall k :: 0 <= k < |Batches(xs)| ==>
      k * BatchSize < |xs| && Batches(xs)[k] == xs[k * BatchSize..Min(k * BatchSize + BatchSize, |xs|)]
    ensures forall k :: 0 <= k < |Batches(xs)| ==> 1 <= |Batches(xs)[k]| <= BatchSize
    ensures forall k :: 0 <= k < |Batches(xs)| - 1 ==> |Batches(xs)[k]| == BatchSize
  {
    BatchCount(xs);
    forall k | 0 <= k < |Batches(xs)|
      ensures k * BatchSize < |xs| && Batches(xs)[k] == xs[k * BatchSize..Min(k * BatchSize + BatchSize, |xs|)]
    {
      BatchAt(xs, k);
    }
    forall k | 0 <= k < |Batches(xs)| - 1
      ensures |Batches(xs)[k]| == BatchSize
    {
      BatchAt(xs, k + 1);
    }
  }

  lemma {:induction false} BatchCount<T>(xs: seq<T>)
    ensures |Batches(xs)| == (|xs| + BatchSize - 1) / BatchSize
    decreases |xs|
  {
    if xs != [] {
      var n := Min(BatchSize, |xs|);
      BatchCount(xs[n..]);
    }
  }

  /** Batch `k` is the slice starting at `k * BatchSize`. */
  lemma {:induction false} BatchAt<T>(xs: seq<T>, k: nat)
    requires k < |Batches(xs)|
    ensures k * BatchSize < |xs|
    ensures Batches(xs)[k] == xs[k * BatchSize..Min(k * BatchSize + BatchSize, |xs|)]
    decreases k
  {
    var n := Min(BatchSize, |xs|);
    var rest := xs[n..];
    if k > 0 {
      assert Batches(xs)[k] == Batches(rest)[k - 1];
      BatchAt(rest, k - 1);
      var lo, hi := (k - 1) * BatchSize, Min((k - 1) * BatchSize + BatchSize, |rest|);
      assert n == BatchSize;
      assert rest[lo..hi] == xs[n + lo..n + hi];
    }
  }

  /** The log as a walk over the batches: batch k (from 0) is announced as number k + 1 and
      its recipients are the `start`-th onwards of the run. */
  function RunBatches(bs: seq<seq<Recipient>>, number: nat, start: nat, env: Environment): seq<Event>
    decreases |bs|
  {
    if bs == [] then []
    else
      [BatchStart(number, |bs[0]|)] +
      if !env.relay.opens(number) then [Aborted(number)]
      else Attempts(bs[0], start, env) + [Sleep(PauseSeconds)] + RunBatches(bs[1..], number + 1, start + |bs[0]|, env)
  }

  /** The dispatcher walks exactly the batches of the reference slicing, numbered from 1. */
  lemma {:induction false} RunFromBatches(rs: seq<Recipient>, m: nat, env: Environment)
    requires m * BatchSize <= |rs|
    ensures RunFrom(rs, m * BatchSize, env) == RunBatches(Batches(rs[m * BatchSize..]), m + 1, m * BatchSize, env)
    decreases |rs| - m * BatchSize
  {
    if m * BatchSize < |rs| {
      if (m + 1) * BatchSize <= |rs| {
        RunFromBatches(rs, m + 1, env);
      }
      FirstBatch(rs, m, env);
    }
  }

  /** One step of `RunFromBatches`: the batch at `m` agrees, given that the rest does. */
  lemma FirstBatch(rs: seq<Recipient>, m: nat, env: Environment)
    requires m * BatchSize < |rs|
    requires (m + 1) * BatchSize <= |rs| ==>
      RunFrom(rs, (m + 1) * BatchSize, env) == RunBatches(Batches(rs[(m + 1) * BatchSize..]), m + 2, (m + 1) * BatchSize, env)
    ensures RunFrom(rs, m * BatchSize, env) == RunBatches(Batches(rs[m * BatchSize..]), m + 1, m * BatchSize, env)
  {
    BatchesHead(rs, m);
    BatchNumber(m);
    RunFromStepAt(rs, m, env);
    RunBatchesStep(Batches(rs[m * BatchSize..]), m + 1, m * BatchSize, env);
  }

  /** `RunFromStep` for the batch start `m * BatchSize`, whose number is `m + 1`. */
  lemma RunFromStepAt(rs: seq<Recipient>, m: nat, env: Environment)
    requires m * BatchSize < |rs|
    ensures var i := m * BatchSize; var batch := rs[i..Min(i + BatchSize, |rs|)];
      RunFrom(rs, i, env) ==
        if !env.relay.opens(m + 1) then [BatchStart(m + 1, |batch|), Aborted(m + 1)]
        else [BatchStart(m + 1, |batch|)] + Attempts(batch, i, env) + [Sleep(PauseSeconds)] + RunFrom(rs, i + BatchSize, env)
  {
    BatchNumber(m);
    RunFromStep(rs, m * BatchSize, env);
  }

  lemma BatchNumber(m: nat)
    ensures m * BatchSize / BatchSize == m
    ensures m * BatchSize + BatchSize == (m + 1) * BatchSize
  {
  }

  /** The first batch of the suffix at `m * BatchSize`, and the batches after it. */
  lemma BatchesHead(rs: seq<Recipient>, m: nat)
    requires m * BatchSize < |rs|
    ensures var i := m * BatchSize; var bs := Batches(rs[i..]);
      bs != [] && bs[0] == rs[i..Min(i + BatchSize, |rs|)] &&
      if (m + 1) * BatchSize <= |rs| then
        i + |bs[0]| == (m + 1) * BatchSize && bs[1..] == Batches(rs[(m + 1) * BatchSize..])
      else i + BatchSize >= |rs| && bs[1..] == []
  {
    var i := m * BatchSize;
    var rest := rs[i..];
    var n := Min(BatchSize, |rest|);
    assert rs[i..Min(i + BatchSize, |rs|)] == rest[..n];
    assert Batches(rest)[1..] == Batches(rest[n..]);
    if (m + 1) * BatchSize <= |rs| {
      assert rs[(m + 1) * BatchSize..] == rest[n..];
    } else {
      assert rest[n..] == [];
    }
  }

  lemma RunBatchesStep(bs: seq<seq<Recipient>>, number: nat, start: nat, env: Environment)
    requires bs != []
    ensures RunBatches(bs, number, start, env) ==
      if !env.relay.opens(number) then [BatchStart(number, |bs[0]|), Aborted(number)]
      else [BatchStart(number, |bs[0]|)] + Attempts(bs[0], start, env) + [Sleep(PauseSeconds)] +
           RunBatches(bs[1..], number + 1, start + |bs[0]|, env)
  {
  }

  lemma RunFollowsBatches(rs: seq<Recipient>, env: Environment)
    ensures Run(rs, env) == RunBatches(Batches(rs), 1, 0, env)
  {
    RunFromBatches(rs, 0, env);
    assert rs[0..] == rs;
  }

  // ---------------------------------------------------------------------------------------
  // Attempts: exactly once, in order, failures isolated

  /** The k-th attempt of a batch is the recipient's outcome under the relay's verdict on
      the (start + k)-th `sendmail` call. */
  lemma {:induction false} AttemptsAt(batch: seq<Recipient>, start: nat, env: Environment, k: nat)
    requires k < |batch|
    ensures Attempts(batch, start, env)[k] == Outcome(batch[k], start + k, env)
    decreases |batch|
  {
    if k < |batch| - 1 {
      AttemptsAt(batch[..|batch| - 1], start, env, k);
    }
  }

  lemma {:induction false} AttemptsConcat(a: seq<Recipient>, b: seq<Recipient>, start: nat, env: Environment)
    ensures Attempts(a + b, start, env) == Attempts(a, start, env) + Attempts(b, start + |a|, env)
    decreases |b|
  {
    if b == [] {
      assert a + b == a;
    } else {
      var b' := b[..|b| - 1];
      AttemptsConcat(a, b', start, env);
      assert (a + b)[..|a + b| - 1] == a + b';
    }
  }

  lemma {:induction false} AttemptsAreAttempts(batch: seq<Recipient>, start: nat, env: Environment)
    ensures Filter(Attempts(batch, start, env), IsAttempt) == Attempts(batch, start, env)
    decreases |batch|
  {
    if batch != [] {
      var n := |batch| - 1;
      AttemptsAreAttempts(batch[..n], start, env);
      var a := Attempts(batch, start, env);
      assert a[..|a| - 1] == Attempts(batch[..n], start, env);
    }
  }

  /** Where the run stops attempting: the start of the first batch whose session does not
      come up, or the end of the list. */
  function Reached(rs: seq<Recipient>, i: nat, env: Environment): (r: nat)
    requires i <= |rs|
    ensures i <= r <= |rs|
    decreases |rs| - i
  {
    if i == |rs| then |rs|
    else if !env.relay.opens(i / BatchSize + 1) then i
    else Reached(rs, Min(i + BatchSize, |rs|), env)
  }

  /** Where the run stops depends on which sessions come up, never on which sends the relay
      accepts: a refused send does not end the run. */
  lemma {:induction false} ReachedIgnoresAccepts(rs: seq<Recipient>, i: nat, e1: Environment, e2: Environment)
    requires i <= |rs| && e1.relay.opens == e2.relay.opens
    ensures Reached(rs, i, e1) == Reached(rs, i, e2)
    decreases |rs| - i
  {
    if i < |rs| && e1.relay.opens(i / BatchSize + 1) {
      ReachedIgnoresAccepts(rs, Min(i + BatchSize, |rs|), e1, e2);
    }
  }

  /** The attempts logged from batch start `i` on are those for the recipients up to where
      the run stops, in list order, each once. */
  lemma {:induction false} RunFromAttempts(rs: seq<Recipient>, i: nat, env: Environment)
    requires i <= |rs|
    ensures Filter(RunFrom(rs, i, env), IsAttempt) == Attempts(rs[i..Reached(rs, i, env)], i, env)
    decreases |rs| - i
  {
    if i < |rs| {
      if !env.relay.opens(i / BatchSize + 1) {
        AbortedAttempts(rs, i, env);
      } else {
        var j := Min(i + BatchSize, |rs|);
        RunFromAttempts(rs, j, env);
        if j < |rs| {
          assert i + BatchSize == j;
        }
        SentAttempts(rs, i, env);
      }
    }
  }

  /** A batch whose session does not come up adds no attempt and ends the run. */
  lemma AbortedAttempts(rs: seq<Recipient>, i: nat, env: Environment)
    requires i < |rs| && !env.relay.opens(i / BatchSize + 1)
    ensures Filter(RunFrom(rs, i, env), IsAttempt) == Attempts(rs[i..Reached(rs, i, env)], i, env)
  {
    var number := i / BatchSize + 1;
    var start := BatchStart(number, Min(i + BatchSize, |rs|) - i);
    assert Filter(RunFrom(rs, i, env), IsAttempt) == [] by {
      RunFromStep(rs, i, env);
      FilterAround(start, [], Aborted(number), [], IsAttempt);
      assert [start] + [] + [Aborted(number)] + [] == RunFrom(rs, i, env);
    }
    assert rs[i..i] == [];
  }

  /** A batch whose session comes up adds the attempts for its recipients before those of
      the batches after it. */
  lemma SentAttempts(rs: seq<Recipient>, i: nat, env: Environment)
    requires i < |rs| && env.relay.opens(i / BatchSize + 1)
    requires var j := Min(i + BatchSize, |rs|);
      Filter(RunFrom(rs, i + BatchSize, env), IsAttempt) == Attempts(rs[j..Reached(rs, j, env)], j, env)
    ensures Filter(RunFrom(rs, i, env), IsAttempt) == Attempts(rs[i..Reached(rs, i, env)], i, env)
  {
    var j := Min(i + BatchSize, |rs|);
    var r := Reached(rs, j, env);
    SentBatchAttempts(rs, i, env);
    AttemptsConcat(rs[i..j], rs[j..r], i, env);
    SliceSplit(rs, i, j, r);
    ReachedStep(rs, i, env);
  }

  /** The attempts of a batch whose session comes up, then those of the rest of the run. */
  lemma SentBatchAttempts(rs: seq<Recipient>, i: nat, env: Environment)
    requires i < |rs| && env.relay.opens(i / BatchSize + 1)
    ensures var batch := rs[i..Min(i + BatchSize, |rs|)];
      Filter(RunFrom(rs, i, env), IsAttempt) ==
      Attempts(batch, i, env) + Filter(RunFrom(rs, i + BatchSize, env), IsAttempt)
  {
    var batch := rs[i..Min(i + BatchSize, |rs|)];
    var a := Attempts(batch, i, env);
    var tail := RunFrom(rs, i + BatchSize, env);
    var announce := BatchStart(i / BatchSize + 1, |batch|);
    assert RunFrom(rs, i, env) == [announce] + a + [Sleep(PauseSeconds)] + tail by {
      RunFromStep(rs, i, env);
    }
    assert !IsAttempt(announce) && !IsAttempt(Sleep(PauseSeconds));
    FilterAround(announce, a, Sleep(PauseSeconds), tail, IsAttempt);
    AttemptsAreAttempts(batch, i, env);
  }

  lemma ReachedStep(rs: seq<Recipient>, i: nat, env: Environment)
    requires i < |rs| && env.relay.opens(i / BatchSize + 1)
    ensures Reached(rs, i, env) == Reached(rs, Min(i + BatchSize, |rs|), env)
  {
  }

  /** Filtering an event, a run of events, an event and the rest. */
  lemma FilterAround<T>(x: T, a: seq<T>, z: T, t: seq<T>, p: T -> bool)
    ensures Filter([x] + a + [z] + t, p) ==
      (if p(x) then [x] else []) + Filter(a, p) + (if p(z) then [z] else []) + Filter(t, p)
  {
    FilterConcat([x] + a + [z], t, p);
    FilterConcat([x] + a, [z], p);
    FilterConcat([x], a, p);
    assert [x][..0] == [] && [z][..0] == [];
  }

  /** Every recipient before the point where the run stops gets exactly one attempt, in list
      order, whatever happened to the others; the k-th is `Sent` exactly when the relay
      accepts the k-th `sendmail` call. */
  lemma RunAttempts(rs: seq<Recipient>, env: Environment, k: nat)
    ensures var attempts := Filter(Run(rs, env), IsAttempt);
      |attempts| == Reached(rs, 0, env) &&
      (k < |attempts| ==>
        attempts[k] == Outcome(rs[k], k, env) &&
        (attempts[k] == Sent(rs[k].email) <==> env.relay.accepts(k)) &&
        (attempts[k] == Failed(rs[k].email) <==> !env.relay.accepts(k)))
  {
    RunFromAttempts(rs, 0, env);
    var r := Reached(rs, 0, env);
    if k < r {
      AttemptsAt(rs[0..r], 0, env, k);
    }
  }

  /** When every session comes up, the run reaches the end of the list: every recipient is
      attempted once, in order. */
  lemma {:induction false} ReachedEnd(rs: seq<Recipient>, i: nat, env: Environment)
    requires i <= |rs|
    requires forall n :: env.relay.opens(n)
    ensures Reached(rs, i, env) == |rs|
    decreases |rs| - i
  {
    if i < |rs| {
      ReachedEnd(rs, Min(i + BatchSize, |rs|), env);
    }
  }

  lemma AllAttempted(rs: seq<Recipient>, env: Environment)
    requires forall n :: env.relay.opens(n)
    ensures Filter(Run(rs, env), IsAttempt) == Attempts(rs, 0, env)
  {
    RunFromAttempts(rs, 0, env);
    ReachedEnd(rs, 0, env);
    assert rs[0..|rs|] == rs;
  }

  /** When the session of batch `b` does not come up and all before it did, the log ends
      with `Aborted(b)` and only the recipients of the earlier batches were attempted. */
  lemma {:induction false} AbortStops(rs: seq<Recipient>, m: nat, env: Environment, b: nat)
    requires m < b && (b - 1) * BatchSize < |rs|
    requires forall n :: m + 1 <= n < b ==> env.relay.opens(n)
    requires !env.relay.opens(b)
    ensures Reached(rs, m * BatchSize, env) == (b - 1) * BatchSize
    ensures var log := RunFrom(rs, m * BatchSize, env); log != [] && log[|log| - 1] == Aborted(b)
    decreases b - m
  {
    var i := m * BatchSize;
    assert i / BatchSize == m;
    RunFromStep(rs, i, env);
    if m + 1 < b {
      assert i + BatchSize == (m + 1) * BatchSize <= (b - 1) * BatchSize;
      AbortStops(rs, m + 1, env, b);
      var batch := rs[i..Min(i + BatchSize, |rs|)];
      LastOfAppend([BatchStart(m + 1, |batch|)] + Attempts(batch, i, env) + [Sleep(PauseSeconds)], RunFrom(rs, i + BatchSize, env));
    }
  }

  lemma LastOfAppend<T>(a: seq<T>, b: seq<T>)
    requires b != []
    ensures (a + b)[|a + b| - 1] == b[|b| - 1]
  {
  }

  lemma Aborts(rs: seq<Recipient>, env: Environment, b: nat)
    requires b >= 1 && (b - 1) * BatchSize < |rs|
    requires forall n :: 1 <= n < b ==> env.relay.opens(n)
    requires !env.relay.opens(b)
    ensures Filter(Run(rs, env), IsAttempt) == Attempts(rs[..(b - 1) * BatchSize], 0, env)
    ensures Run(rs, env)[|Run(rs, env)| - 1] == Aborted(b)
  {
    AbortStops(rs, 0, env, b);
    RunFromAttempts(rs, 0, env);
    assert rs[0..(b - 1) * BatchSize] == rs[..(b - 1) * BatchSize];
  }

  // ---------------------------------------------------------------------------------------
  // Batch announcements and pauses

  /** Attempts are neither announcements nor pauses. */
  lemma {:induction false} AttemptsFree(batch: seq<Recipient>, start: nat, env: Environment)
    ensures Filter(Attempts(batch, start, env), IsBatchStart) == []
    ensures Filter(Attempts(batch, start, env), IsSleep) == []
    decreases |batch|
  {
    if batch != [] {
      var n := |batch| - 1;
      AttemptsFree(batch[..n], start, env);
      var a := Attempts(batch, start, env);
      assert a[..|a| - 1] == Attempts(batch[..n], start, env);
    }
  }

  /** With every session up, the batches are announced in order, the k-th (from 0) with
      number `number + k` and its own size. */
  lemma {:induction false} BatchesAnnounced(bs: seq<seq<Recipient>>, number: nat, start: nat, env: Environment)
    requires forall n :: env.relay.opens(n)
    ensures Filter(RunBatches(bs, number, start, env), IsBatchStart) == Announcements(bs, number)
    decreases |bs|
  {
    if bs != [] {
      BatchesAnnounced(bs[1..], number + 1, start + |bs[0]|, env);
      AnnouncedFirst(bs, number, start, env);
      AnnouncementsStep(bs, number);
    }
  }

  /** A batch whose session opens: announced, sent, then the pause, then the next batches. */
  lemma OpenedBatch(bs: seq<seq<Recipient>>, number: nat, start: nat, env: Environment)
    requires bs != [] && env.relay.opens(number)
    ensures RunBatches(bs, number, start, env) ==
      [BatchStart(number, |bs[0]|)] + Attempts(bs[0], start, env) + [Sleep(PauseSeconds)] +
      RunBatches(bs[1..], number + 1, start + |bs[0]|, env)
  {
    RunBatchesStep(bs, number, start, env);
  }

  /** A batch whose session opens contributes its own announcement and nothing else. */
  lemma AnnouncedFirst(bs: seq<seq<Recipient>>, number: nat, start: nat, env: Environment)
    requires bs != [] && env.relay.opens(number)
    ensures Filter(RunBatches(bs, number, start, env), IsBatchStart) ==
      [BatchStart(number, |bs[0]|)] + Filter(RunBatches(bs[1..], number + 1, start + |bs[0]|, env), IsBatchStart)
  {
    OpenedBatch(bs, number, start, env);
    FilterAround(BatchStart(number, |bs[0]|), Attempts(bs[0], start, env), Sleep(PauseSeconds),
                 RunBatches(bs[1..], number + 1, start + |bs[0]|, env), IsBatchStart);
    AttemptsFree(bs[0], start, env);
  }

  /** One announcement per batch, numbered on from `number`, each with its batch's size. */
  function Announcements(bs: seq<seq<Recipient>>, number: nat): seq<Event>
  {
    seq(|bs|, k requires 0 <= k < |bs| => BatchStart(number + k, |bs[k]|))
  }

  lemma AnnouncementsStep(bs: seq<seq<Recipient>>, number: nat)
    requires bs != []
    ensures Announcements(bs, number) == [BatchStart(number, |bs[0]|)] + Announcements(bs[1..], number + 1)
  {
    var r := [BatchStart(number, |bs[0]|)] + Announcements(bs[1..], number + 1);
    forall k | 1 <= k < |bs|
      ensures r[k] == BatchStart(number + k, |bs[k]|)
    {
      assert r[k] == Announcements(bs[1..], number + 1)[k - 1];
      assert bs[k] == bs[1..][k - 1];
    }
  }

  /** With every session up, each batch is followed by exactly one pause, the last one
      included. */
  lemma {:induction false} BatchesPaused(bs: seq<seq<Recipient>>, number: nat, start: nat, env: Environment)
    requires forall n :: env.relay.opens(n)
    ensures Filter(RunBatches(bs, number, start, env), IsSleep) == seq(|bs|, _ => Sleep(PauseSeconds))
    decreases |bs|
  {
    if bs != [] {
      BatchesPaused(bs[1..], number + 1, start + |bs[0]|, env);
      PausedFirst(bs, number, start, env);
      Repeated(Sleep(PauseSeconds), |bs| - 1);
    }
  }

  /** A batch whose session opens contributes exactly one pause, after its sends. */
  lemma PausedFirst(bs: seq<seq<Recipient>>, number: nat, start: nat, env: Environment)
    requires bs != [] && env.relay.opens(number)
    ensures Filter(RunBatches(bs, number, start, env), IsSleep) ==
      [Sleep(PauseSeconds)] + Filter(RunBatches(bs[1..], number + 1, start + |bs[0]|, env), IsSleep)
  {
    OpenedBatch(bs, number, start, env);
    FilterAround(BatchStart(number, |bs[0]|), Attempts(bs[0], start, env), Sleep(PauseSeconds),
                 RunBatches(bs[1..], number + 1, start + |bs[0]|, env), IsSleep);
    AttemptsFree(bs[0], start, env);
  }

  lemma Repeated<T>(x: T, n: nat)
    ensures [x] + seq(n, _ => x) == seq(n + 1, _ => x)
  {
  }

  /** With every session up there are ceil(N / 15) announcements, batch k + 1 announced with
      the size of the slice starting at 15 * k, and as many pauses. */
  lemma RunAnnouncesAndPauses(rs: seq<Recipient>, env: Environment)
    requires forall n :: env.relay.opens(n)
    ensures var count := (|rs| + BatchSize - 1) / BatchSize;
      var starts := Filter(Run(rs, env), IsBatchStart);
      |starts| == count &&
      (forall k :: 0 <= k < count ==> starts[k] == BatchStart(k + 1, Min(BatchSize, |rs| - k * BatchSize))) &&
      Filter(Run(rs, env), IsSleep) == seq(count, _ => Sleep(PauseSeconds))
  {
    RunFollowsBatches(rs, env);
    BatchesAnnounced(Batches(rs), 1, 0, env);
    BatchesPaused(Batches(rs), 1, 0, env);
    BatchesShape(rs);
  }

  // ---------------------------------------------------------------------------------------
  // An example

  /** Three recipients, every session up, the relay refusing only the second message:
      one batch, the failure logged, the third still sent, one pause. */
  lemma SecondRefused(a: Recipient, b: Recipient, c: Recipient, env: Environment)
    requires forall n :: env.relay.opens(n)
    requires env.relay.accepts(0) && !env.relay.accepts(1) && env.relay.accepts(2)
    ensures Run([a, b, c], env) ==
      [BatchStart(1, 3), Sent(a.email), Failed(b.email), Sent(c.email), Sleep(PauseSeconds)]
  {
    var rs := [a, b, c];
    RunFromStep(rs, 0, env);
    assert rs[0..3] == rs;
    AttemptsStep(rs, 0, 0, env);
    AttemptsStep(rs, 1, 0, env);
    AttemptsStep(rs, 2, 0, env);
    assert rs[..0] == [] && rs[..3] == rs;
  }
}
