/** Uploads with retry: backend/internal/retry/retry.go and backend/internal/storage/filer.go. */
module Storage {
  import opened Decimal

  /** What comes back of one POST, and whether the Filer kept the object
      although it did not say so. */
  datatype Reply = Transport(kept: bool) | Status(code: int, kept: bool)

  /** `*retryableUploadError`, or any other error. */
  datatype UploadError = Transient | Permanent

  datatype Post = Post(path: string, body: string, reply: Reply)

  /** sendUpload's classification of a reply; None is success. */
  function ErrorOf(r: Reply): Option<UploadError> {
    match r
    case Transport(_) => Some(Transient)
    case Status(code, _) =>
      if code == 200 || code == 201 then None
      else if code == 429 || code >= 500 then Some(Transient)
      else Some(Permanent)
  }

  /** The Filer's objects after a run of POSTs. */
  function Objects(posts: seq<Post>): map<string, string> {
    if posts == [] then map[]
    else
      var before, p := Objects(posts[..|posts| - 1]), posts[|posts| - 1];
      if ErrorOf(p.reply).None? || p.reply.kept then before[p.path := p.body] else before
  }

  class Filer {
    const reply: nat -> Reply
    var posts: seq<Post>

    constructor (reply: nat -> Reply)
      ensures posts == [] && this.reply == reply
    {
      this.reply, posts := reply, [];
    }

    method SendUpload(path: string, body: string) returns (err: Option<UploadError>)
      modifies this
      ensures posts == old(posts) + [Post(path, body, reply(|old(posts)|))]
      ensures err == ErrorOf(posts[|posts| - 1].reply)
      ensures var r := reply(|old(posts)|);
              && (err.None? <==> r.Status? && r.code in {200, 201})
              && (err == Some(Transient) <==> r.Transport? || r.code == 429 || r.code >= 500)
    {
      posts := posts + [Post(path, body, reply(|posts|))];
      err := ErrorOf(posts[|posts| - 1].reply);
    }
  }

  /* ------------------------------------------------------------- retry */

  function Pow2(k: nat): (p: nat)
    ensures p > 0
  {
    if k == 0 then 1 else 2 * Pow2(k - 1)
  }

  /** Two's complement int64. */
  function Wrap64(n: int): int {
    (n + 0x8000_0000_0000_0000) % 0x1_0000_0000_0000_0000 - 0x8000_0000_0000_0000
  }

  /** `baseDelay << uint(attempt)` on a time.Duration. */
  function Delay(base: int, attempt: nat): int {
    Wrap64(base * Pow2(attempt))
  }

  /** Time spent in the first n waits; a timer for a negative delay fires at once. */
  function Waited(base: int, n: nat): int {
    if n == 0 then 0
    else Waited(base, n - 1) + (if Delay(base, n - 1) < 0 then 0 else Delay(base, n - 1))
  }

  /** The `retryable` argument: the errors it accepts, or nil. */
  type Classifier = Option<set<UploadError>>

  predicate Retryable(classify: Classifier, e: UploadError) {
    classify.None? || e in classify.value
  }

  function Limit(attempts: int): nat {
    if attempts < 1 then 1 else attempts
  }

  predicate FailedRetryably(p: Post, classify: Classifier) {
    ErrorOf(p.reply).Some? && Retryable(classify, ErrorOf(p.reply).value)
  }

  /** Every call failed retryably and was waited after. */
  ghost predicate AllWaited(calls: seq<Post>, classify: Classifier, done: set<nat>, from: nat) {
    forall i {:trigger calls[i]} :: 0 <= i < |calls| ==> FailedRetryably(calls[i], classify) && from + i !in done
  }

  /** What retry.Do promises of its calls: between one and `attempts` of them,
      every one but the last failed retryably and was waited after, and stopping
      short means success, a permanent error, or a done context. */
  ghost predicate Retried(calls: seq<Post>, attempts: int, classify: Classifier, done: set<nat>, from: nat) {
    && 1 <= |calls| <= Limit(attempts)
    && AllWaited(calls[..|calls| - 1], classify, done, from)
    && (|calls| < Limit(attempts) ==>
          !FailedRetryably(calls[|calls| - 1], classify) || from + |calls| - 1 in done)
  }

  lemma RetriedEnds(calls: seq<Post>, last: Post, attempts: int, classify: Classifier, done: set<nat>, from: nat)
    requires AllWaited(calls, classify, done, from) && |calls| < Limit(attempts)
    ensures |calls| + 1 == Limit(attempts) || !FailedRetryably(last, classify) || from + |calls| in done
            ==> Retried(calls + [last], attempts, classify, done, from)
    ensures FailedRetryably(last, classify) && from + |calls| !in done
            ==> AllWaited(calls + [last], classify, done, from)
  {
    assert (calls + [last])[..|calls|] == calls;
  }

  /** The POSTs numbered from `from` on, if all carry `body` to `path`. */
  ghost predicate Sends(calls: seq<Post>, f: Filer, path: string, body: string, from: nat) {
    forall i :: 0 <= i < |calls| ==> calls[i] == Post(path, body, f.reply(from + i))
  }

  lemma SendsNext(calls: seq<Post>, f: Filer, path: string, body: string, from: nat)
    requires Sends(calls, f, path, body, from)
    ensures Sends(calls + [Post(path, body, f.reply(from + |calls|))], f, path, body, from)
  {
  }

  lemma Classified(p: Post, classify: Classifier)
    ensures FailedRetryably(p, classify) <==>
            ErrorOf(p.reply).Some? && (classify.None? || ErrorOf(p.reply).value in classify.value)
  {
  }

  /** `fn()` and the two tests on its error: `stop` unless it is to be retried. */
  method Call(f: Filer, path: string, body: string, last: bool, classify: Classifier, done: set<nat>,
              ghost calls: seq<Post>, ghost attempts: int)
    returns (err: Option<UploadError>, stop: bool, ghost after: seq<Post>)
    requires |calls| <= |f.posts| && Sends(calls, f, path, body, |f.posts| - |calls|)
    requires AllWaited(calls, classify, done, |f.posts| - |calls|)
    requires |calls| < Limit(attempts) && (last <==> |calls| + 1 == Limit(attempts))
    modifies f
    ensures |f.posts| == |old(f.posts)| + 1 && |after| == |calls| + 1
    ensures forall before :: old(f.posts) == before + calls ==> f.posts == before + after
    ensures Sends(after, f, path, body, |f.posts| - |after|)
    ensures err == ErrorOf(after[|calls|].reply)
    ensures stop || |f.posts| - 1 in done ==> Retried(after, attempts, classify, done, |f.posts| - |after|)
    ensures !stop && |f.posts| - 1 !in done ==> AllWaited(after, classify, done, |f.posts| - |after|)
    ensures !stop ==> |after| < Limit(attempts)
    ensures after[..|calls|] == calls
  {
    hide AllWaited, Retried, Sends, FailedRetryably;
    ghost var from := |f.posts| - |calls|;
    err := f.SendUpload(path, body);
    ghost var p := f.posts[|f.posts| - 1];
    RetriedEnds(calls, p, attempts, classify, done, from);
    SendsNext(calls, f, path, body, from);
    Classified(p, classify);
    after := calls + [p];
    stop := err.None? || (classify.Some? && err.value !in classify.value) || last;
  }

  /** retry.Do around a POST. `done`: the POSTs of the task after which the wait
      ends by ctx.Done rather than by the timer. `crash`: something panics once
      the task has made that many POSTs. */
  method Do(f: Filer, path: string, body: string, attempts: int, baseDelay: int,
            classify: Classifier, done: set<nat>, crash: Option<nat>)
    returns (err: Option<UploadError>, panicked: bool, ghost waited: int, ghost calls: seq<Post>)
    requires crash.Some? ==> |f.posts| < crash.value
    modifies f
    ensures f.posts == old(f.posts) + calls
    ensures 1 <= |calls| <= (if attempts < 1 then 1 else attempts) && Sends(calls, f, path, body, |old(f.posts)|)
    ensures AllWaited(calls[..|calls| - 1], classify, done, |old(f.posts)|)
    ensures panicked <==> crash == Some(|f.posts|)
    ensures !panicked && crash.Some? ==> |f.posts| < crash.value
    ensures !panicked ==> Retried(calls, attempts, classify, done, |old(f.posts)|)
    ensures err == ErrorOf(calls[|calls| - 1].reply)
    ensures waited == Waited(baseDelay, |calls| - 1)
  {
    assert AllWaited([], classify, done, |f.posts|) && Sends([], f, path, body, |f.posts|);
    hide Waited, Delay, AllWaited, Retried, Sends, FailedRetryably, ErrorOf;
    WaitedNext(baseDelay, 0);
    var limit := Limit(attempts);
    waited, calls, panicked := 0, [], false;
    var attempt := 0;
    while true
      invariant attempt < limit && |calls| == attempt
      invariant f.posts == old(f.posts) + calls
      invariant crash.Some? ==> |f.posts| < crash.value
      invariant Sends(calls, f, path, body, |old(f.posts)|)
      invariant AllWaited(calls, classify, done, |old(f.posts)|)
      invariant waited == Waited(baseDelay, attempt)
      decreases limit - attempt
    {
      ghost var before := calls;
      var stop;
      err, stop, calls := Call(f, path, body, attempt == limit - 1, classify, done, calls, attempts);
      assert calls[..|calls| - 1] == before;
      if crash == Some(|f.posts|) {
        panicked := true;
        break;
      }
      if stop || |f.posts| - 1 in done {
        break;
      }
      var delay := Delay(baseDelay, attempt);
      WaitedNext(baseDelay, attempt);
      waited := waited + (if delay < 0 then 0 else delay);
      attempt := attempt + 1;
    }
  }

  lemma WaitedNext(base: int, n: nat)
    ensures Waited(base, 0) == 0
    ensures Waited(base, n + 1) == Waited(base, n) + (if Delay(base, n) < 0 then 0 else Delay(base, n))
  {
    hide Delay;
  }

  lemma WaitedAt(calls: seq<Post>, i: nat, classify: Classifier, done: set<nat>, from: nat)
    requires i < |calls| - 1 && AllWaited(calls[..|calls| - 1], classify, done, from)
    ensures FailedRetryably(calls[i], classify) && from + i !in done
  {
    assert calls[..|calls| - 1][i] == calls[i];
  }

  /** The replies decide how many calls there are: no two lengths will do. */
  lemma RetriedLengthIsUnique(a: seq<Post>, b: seq<Post>, attempts: int, classify: Classifier, done: set<nat>,
                              from: nat)
    requires Retried(a, attempts, classify, done, from) && Retried(b, attempts, classify, done, from)
    requires a <= b
    ensures a == b
  {
    hide FailedRetryably;
    if |a| < |b| {
      WaitedAt(b, |a| - 1, classify, done, from);
      assert false;
    }
  }

  lemma {:induction false} Pow2Monotone(j: nat, k: nat)
    requires j <= k
    ensures Pow2(j) <= Pow2(k)
    decreases k
  {
    if j < k {
      Pow2Monotone(j, k - 1);
    }
  }

  lemma WrapIsIdentity(n: int)
    requires n >= 0
    ensures Wrap64(n) == n <==> n <= MAX_INT64
  {
  }

  lemma WrapIsTwosComplement(n: int) returns (k: int)
    ensures MIN_INT64 <= Wrap64(n) <= MAX_INT64 && Wrap64(n) == n + k * 0x1_0000_0000_0000_0000
  {
    k := -((n + 0x8000_0000_0000_0000) / 0x1_0000_0000_0000_0000);
  }

  lemma MulMonotone(a: nat, b: nat, c: nat)
    requires b <= c
    ensures a * b <= a * c
  {
  }

  /** Every shift of a run of n calls is the exact doubling if and only if the
      last one fits an int64. */
  lemma DelaysAreExact(base: nat, n: nat)
    ensures (forall k :: 0 <= k < n - 1 ==> Delay(base, k) == base * Pow2(k))
            <==> n < 2 || base * Pow2(n - 2) <= MAX_INT64
  {
    hide Wrap64, Pow2;
    forall k | 0 <= k < n - 1
      ensures Delay(base, k) == base * Pow2(k) <==> base * Pow2(k) <= MAX_INT64
      ensures base * Pow2(k) <= base * Pow2(n - 2)
    {
      WrapIsIdentity(base * Pow2(k));
      Pow2Monotone(k, n - 2);
      MulMonotone(base, Pow2(k), Pow2(n - 2));
    }
  }

  /** While the shifts fit, n calls that were not cut short waited
      baseDelay * (2^(n-1) - 1) in all. */
  lemma {:induction false} BackoffTotal(base: nat, n: nat)
    requires n >= 1
    requires n < 2 || base * Pow2(n - 2) <= MAX_INT64
    ensures Waited(base, n - 1) == base * (Pow2(n - 1) - 1)
  {
    hide Wrap64;
    if n >= 2 {
      if n >= 3 {
        MulMonotone(base, Pow2(n - 3), Pow2(n - 2));
      }
      BackoffTotal(base, n - 1);
      DelaysAreExact(base, n);
      Doubling(base, Pow2(n - 2));
    }
  }

  lemma Doubling(base: nat, p: nat)
    requires p >= 1
    ensures base * (2 * p - 1) == base * (p - 1) + base * p
  {
  }

  /* ------------------------------------------------------------ uploads */

  const UPLOAD_ATTEMPTS := 3
  const UPLOAD_BASE_DELAY := 1_000_000_000  // one second

  /** isRetryableUpload. */
  const RETRYABLE_UPLOAD: set<UploadError> := {Transient}

  function ZipPath(taskID: string): string {
    taskID + "/" + taskID + ".zip"
  }

  function SvgPath(taskID: string, name: string): string {
    taskID + "/" + name + ".svg"
  }

  function SvgFile(name: string): string {
    name + ".svg"
  }

  /** The POST carries what belongs at its path: the zip, or the render's file in logs/. */
  ghost predicate Carries(p: Post, taskID: string, zip: string, logs: map<string, string>) {
    && (p.path == ZipPath(taskID) ==> p.body == zip)
    && (forall name :: p.path == SvgPath(taskID, name) ==>
          SvgFile(name) in logs && p.body == logs[SvgFile(name)])
  }

  predicate Accepted(p: Post) {
    p.reply.Status? && (p.reply.code == 200 || p.reply.code == 201)
  }

  /** What isRetryableUpload is for: the next POST may fare better. */
  predicate WorthRetrying(p: Post) {
    p.reply.Transport? || p.reply.code == 429 || p.reply.code >= 500
  }

  /** Another POST follows, unless there were three. */
  predicate GoesOn(calls: seq<Post>, done: set<nat>, from: nat, i: nat)
    requires i < |calls|
  {
    WorthRetrying(calls[i]) && from + i !in done
  }

  /** The POSTs of one upload: three at most, and fewer only if the last was not worth
      retrying or the wait after it was cut short. */
  ghost predicate OneUpload(calls: seq<Post>, done: set<nat>, from: nat) {
    && 1 <= |calls| <= 3
    && (forall i :: 0 <= i < |calls| - 1 ==> GoesOn(calls, done, from, i))
    && (|calls| < 3 ==> !GoesOn(calls, done, from, |calls| - 1))
  }

  lemma FailedUpload(p: Post)
    ensures FailedRetryably(p, Some(RETRYABLE_UPLOAD)) <==> WorthRetrying(p)
  {
  }

  lemma RetriedUpload(calls: seq<Post>, done: set<nat>, from: nat)
    requires Retried(calls, UPLOAD_ATTEMPTS, Some(RETRYABLE_UPLOAD), done, from)
    ensures OneUpload(calls, done, from)
  {
    hide FailedRetryably, WorthRetrying, AllWaited;
    FailedUpload(calls[|calls| - 1]);
    forall i | 0 <= i < |calls| - 1
      ensures GoesOn(calls, done, from, i)
    {
      WaitedAt(calls, i, Some(RETRYABLE_UPLOAD), done, from);
      FailedUpload(calls[i]);
    }
  }

  /** One second before the second POST, two before the third. */
  lemma UploadWaits()
    ensures Waited(UPLOAD_BASE_DELAY, 0) == 0
    ensures Waited(UPLOAD_BASE_DELAY, 1) == 1_000_000_000 && Waited(UPLOAD_BASE_DELAY, 2) == 3_000_000_000
  {
    assert Pow2(0) == 1 && Pow2(1) == 2;
  }

  /** The uploads that completed: the paths of the accepted POSTs, in order. */
  function Completed(posts: seq<Post>): seq<string> {
    if posts == [] then []
    else Completed(posts[..|posts| - 1]) + (if Accepted(posts[|posts| - 1]) then [posts[|posts| - 1].path] else [])
  }

  /** The upload order: the zip, then the manifest's renders. */
  function UploadOrder(taskID: string, renders: seq<string>): seq<string> {
    [taskID + "/" + taskID + ".zip"]
    + seq(|renders|, i requires 0 <= i < |renders| => taskID + "/" + renders[i] + ".svg")
  }

  lemma PathsAreDistinct(taskID: string, name: string)
    ensures SvgPath(taskID, name) != ZipPath(taskID)
    ensures forall other :: SvgPath(taskID, other) == SvgPath(taskID, name) ==> other == name
  {
    var svg, zip := SvgPath(taskID, name), ZipPath(taskID);
    assert svg[|svg| - 1] == 'g' && zip[|zip| - 1] == 'p';
    forall other | SvgPath(taskID, other) == svg
      ensures other == name
    {
      var path := SvgPath(taskID, other);
      assert name == svg[|taskID| + 1..|svg| - 4];
      assert other == path[|taskID| + 1..|path| - 4];
    }
  }

  /** Once every POST carries what belongs at its path, so does every object
      that a completed upload named: later POSTs cannot spoil it. */
  lemma {:induction false} ObjectsCarry(before: seq<Post>, posts: seq<Post>, path: string, body: string)
    requires forall p <- posts :: p.path == path ==> p.body == body
    requires path in Completed(posts)
    ensures path in Objects(before + posts) && Objects(before + posts)[path] == body
  {
    var init, last := posts[..|posts| - 1], posts[|posts| - 1];
    assert (before + posts)[..|before + posts| - 1] == before + init;
    assert last in posts;
    if path in Completed(init) {
      ObjectsCarry(before, init, path, body);
    }
  }

  /** The Filer keeps what it accepted, and may keep what it did not say it accepted. */
  lemma ObjectsAfter(posts: seq<Post>, p: Post)
    ensures Objects(posts + [p])
         == if Accepted(p) || p.reply.kept then Objects(posts)[p.path := p.body] else Objects(posts)
  {
    assert (posts + [p])[..|posts|] == posts;
  }

  lemma {:induction false} CompletedAppend(a: seq<Post>, b: seq<Post>)
    ensures Completed(a + b) == Completed(a) + Completed(b)
  {
    if b == [] {
      assert a + b == a;
    } else {
      assert (a + b)[..|a + b| - 1] == a + b[..|b| - 1];
      CompletedAppend(a, b[..|b| - 1]);
    }
  }

  lemma {:induction false} NoneAccepted(posts: seq<Post>)
    requires forall p <- posts :: !Accepted(p)
    ensures Completed(posts) == []
  {
    if posts != [] {
      assert posts[|posts| - 1] in posts;
      NoneAccepted(posts[..|posts| - 1]);
    }
  }

  /** One upload completes at most once, on its last POST. */
  lemma RetriedCompletesOnce(calls: seq<Post>, classify: Classifier, done: set<nat>, from: nat)
    requires calls != [] && AllWaited(calls[..|calls| - 1], classify, done, from)
    ensures var last := calls[|calls| - 1];
            Completed(calls) == if Accepted(last) then [last.path] else []
  {
    NoneAccepted(calls[..|calls| - 1]);
  }

  lemma AcceptedHasNoError(p: Post)
    ensures Accepted(p) <==> ErrorOf(p.reply).None?
  {
  }

  method UploadFile(f: Filer, path: string, data: string, done: set<nat>, crash: Option<nat>)
    returns (err: Option<UploadError>, panicked: bool, ghost waited: int, ghost calls: seq<Post>)
    requires crash.Some? ==> |f.posts| < crash.value
    modifies f
    ensures f.posts == old(f.posts) + calls
    ensures 1 <= |calls| <= 3 && (!panicked ==> OneUpload(calls, done, |old(f.posts)|))
    ensures waited == if |calls| == 1 then 0 else if |calls| == 2 then 1_000_000_000 else 3_000_000_000
    ensures forall p <- calls :: p.path == path && p.body == data
    ensures panicked <==> crash == Some(|f.posts|)
    ensures !panicked && crash.Some? ==> |f.posts| < crash.value
    ensures Completed(calls) == if err.None? then [path] else []
  {
    hide Completed, ErrorOf, AllWaited, Retried, OneUpload, Waited;
    UploadWaits();
    err, panicked, waited, calls :=
      Do(f, path, data, UPLOAD_ATTEMPTS, UPLOAD_BASE_DELAY, Some(RETRYABLE_UPLOAD), done, crash);
    RetriedCompletesOnce(calls, Some(RETRYABLE_UPLOAD), done, |old(f.posts)|);
    AcceptedHasNoError(calls[|calls| - 1]);
    if !panicked {
      RetriedUpload(calls, done, |old(f.posts)|);
    }
  }

  datatype UploadFailure = NoZip | NoSvg(name: string) | Rejected(error: UploadError)

  datatype UploadEnd = Stored | Failed(why: UploadFailure) | Crashed

  ghost predicate AllStored(objects: map<string, string>, taskID: string, zip: string,
                            logs: map<string, string>, renders: seq<string>)
  {
    var zipPath := taskID + "/" + taskID + ".zip";
    && zipPath in objects && objects[zipPath] == zip
    && forall name <- renders ::
         var path := taskID + "/" + name + ".svg";
         name + ".svg" in logs && path in objects && objects[path] == logs[name + ".svg"]
  }

  lemma SvgCarries(posts: seq<Post>, taskID: string, name: string, zip: string, logs: map<string, string>)
    requires SvgFile(name) in logs
    requires forall p <- posts :: p.path == SvgPath(taskID, name) && p.body == logs[SvgFile(name)]
    ensures forall p <- posts :: Carries(p, taskID, zip, logs)
  {
    PathsAreDistinct(taskID, name);
  }

  lemma ZipCarries(posts: seq<Post>, taskID: string, zip: string, logs: map<string, string>)
    requires forall p <- posts :: p.path == ZipPath(taskID) && p.body == zip
    ensures forall p <- posts :: Carries(p, taskID, zip, logs)
  {
    forall name: string
      ensures SvgPath(taskID, name) != ZipPath(taskID)
    {
      PathsAreDistinct(taskID, name);
    }
  }

  /** All uploads completed, so all objects are in place. */
  lemma CompletedMeansStored(before: seq<Post>, sent: seq<Post>, taskID: string, zip: string,
                             logs: map<string, string>, renders: seq<string>)
    requires forall p <- sent :: Carries(p, taskID, zip, logs)
    requires Completed(sent) == UploadOrder(taskID, renders)
    ensures AllStored(Objects(before + sent), taskID, zip, logs, renders)
  {
    var order := UploadOrder(taskID, renders);
    assert order[0] == ZipPath(taskID);
    ObjectsCarry(before, sent, ZipPath(taskID), zip);
    forall name <- renders
      ensures SvgFile(name) in logs && SvgPath(taskID, name) in Objects(before + sent)
      ensures Objects(before + sent)[SvgPath(taskID, name)] == logs[SvgFile(name)]
    {
      var i :| 0 <= i < |renders| && renders[i] == name;
      assert order[i + 1] == SvgPath(taskID, name);
      CompletedWasSent(sent, SvgPath(taskID, name));
      ObjectsCarry(before, sent, SvgPath(taskID, name), logs[SvgFile(name)]);
    }
  }

  lemma {:induction false} CompletedWasSent(posts: seq<Post>, path: string)
    requires path in Completed(posts)
    ensures exists p <- posts :: p.path == path
  {
    var init, last := posts[..|posts| - 1], posts[|posts| - 1];
    if path in Completed(init) {
      CompletedWasSent(init, path);
      var p :| p in init && p.path == path;
      assert p in posts;
    } else {
      assert last in posts;
    }
  }

  /** UploadToStorage. The completed uploads are a prefix of the upload order, and
      all of it exactly when it does not fail, or if it panics only after; without a
      failure and a panic every object is stored with its content. Each file costs
      at most three POSTs. `crash`: it panics after that many POSTs. */
  method UploadToStorage(f: Filer, taskID: string, zip: Option<string>, logs: map<string, string>,
                         renders: seq<string>, done: set<nat>, crash: Option<nat>)
    returns (end: UploadEnd, ghost sent: seq<Post>)
    modifies f
    ensures f.posts == old(f.posts) + sent
    ensures Completed(sent) <= UploadOrder(taskID, renders)
    ensures end.Crashed? <==> crash == Some(|sent|)
    ensures !end.Crashed? ==> (end.Stored? <==> Completed(sent) == UploadOrder(taskID, renders))
    ensures |sent| <= 3 * (1 + |renders|)
    ensures zip.None? ==> sent == []
    ensures zip.Some? ==> forall p <- sent :: Carries(p, taskID, zip.value, logs)
    ensures end.Stored? ==> zip.Some? && AllStored(Objects(f.posts), taskID, zip.value, logs, renders)
  {
    hide Completed, Objects, Carries;
    sent := [];
    NoneAccepted([]);
    if crash == Some(0) {
      return Crashed, [];
    }
    if zip.None? {
      return Failed(NoZip), [];
    }
    var crashAt := if crash.None? then None else Some(|f.posts| + crash.value);
    ghost var waited;
    var err, panicked;
    ghost var calls;
    err, panicked, waited, calls := UploadFile(f, ZipPath(taskID), zip.value, done, crashAt);
    ZipCarries(calls, taskID, zip.value, logs);
    sent := calls;
    if panicked {
      return Crashed, sent;
    }
    if err.Some? {
      return Failed(Rejected(err.value)), sent;
    }
    for i := 0 to |renders|
      invariant f.posts == old(f.posts) + sent
      invariant crash.Some? ==> |sent| < crash.value
      invariant Completed(sent) == UploadOrder(taskID, renders)[..i + 1]
      invariant |sent| <= 3 * (1 + i)
      invariant forall p <- sent :: Carries(p, taskID, zip.value, logs)
    {
      var svgErr, svgPanicked, svgCalls := UploadSvg(f, taskID, renders[i], logs, done, crashAt, zip.value);
      CompletedAppend(sent, svgCalls);
      sent := sent + svgCalls;
      if svgPanicked {
        return Crashed, sent;
      }
      if svgErr.Some? {
        return Failed(svgErr.value), sent;
      }
    }
    end := Stored;
    CompletedMeansStored(old(f.posts), sent, taskID, zip.value, logs, renders);
  }

  method UploadSvg(f: Filer, taskID: string, name: string, logs: map<string, string>, done: set<nat>,
                   crash: Option<nat>, ghost zip: string)
    returns (err: Option<UploadFailure>, panicked: bool, ghost calls: seq<Post>)
    requires crash.Some? ==> |f.posts| < crash.value
    modifies f
    ensures f.posts == old(f.posts) + calls
    ensures |calls| <= 3
    ensures panicked <==> crash == Some(|f.posts|)
    ensures !panicked && crash.Some? ==> |f.posts| < crash.value
    ensures Completed(calls) == if err.None? then [SvgPath(taskID, name)] else []
    ensures forall p <- calls :: Carries(p, taskID, zip, logs)
  {
    hide Completed, ZipPath, SvgPath, SvgFile, Carries;
    if SvgFile(name) !in logs {
      NoneAccepted([]);
      return Some(NoSvg(name)), false, [];
    }
    var e;
    ghost var waited;
    e, panicked, waited, calls := UploadFile(f, SvgPath(taskID, name), logs[SvgFile(name)], done, crash);
    SvgCarries(calls, taskID, name, zip, logs);
    err := if e.None? then None else Some(Rejected(e.value));
  }
}
