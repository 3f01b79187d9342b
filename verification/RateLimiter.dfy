/**
 The fixed-window rate limiter. A request first drops every bucket, of any category,
 older than twice its own category's window; then it counts itself in its own bucket.
 */
module RateLimiter {
  import opened Wrappers

  datatype Category = Auth | Sensitive

  datatype Config = Config(authWindow: nat, authLimit: nat, sensitiveWindow: nat, sensitiveLimit: nat)

  datatype Key = Key(category: Category, client: string, origin: string)

  datatype Request = Request(key: Key, at: nat)

  datatype Bucket = Bucket(start: nat, count: nat)

  type Store = map<Key, Bucket>

  function Window(c: Config, category: Category): nat {
    if category.Auth? then c.authWindow else c.sensitiveWindow
  }

  function Limit(c: Config, category: Category): nat {
    if category.Auth? then c.authLimit else c.sensitiveLimit
  }

  function Other(category: Category): Category {
    if category.Auth? then Sensitive else Auth
  }

  const AUTH_PATHS := [
    "/api/v1/auth/native/", "/api/v1/auth/sign-in", "/api/v1/auth/sign-up", "/api/v1/auth/refresh",
    "/api/v1/auth/sign-out", "/api/v1/auth/sign-out-all", "/api/v1/auth/node-link/", "/api/v1/auth/device-link/",
    "/api/v1/auth/dev-bootstrap"]

  const SENSITIVE_PATHS := ["/api/v1/sync", "/api/v1/integrations/"]

  predicate StartsWithAny(path: string, prefixes: seq<string>) {
    exists i :: 0 <= i < |prefixes| && prefixes[i] <= path
  }

  function Classify(path: string): Option<Category> {
    if StartsWithAny(path, AUTH_PATHS) then Some(Auth)
    else if StartsWithAny(path, SENSITIVE_PATHS) then Some(Sensitive)
    else None
  }

  predicate Begins(path: string, prefix: string) {
    |prefix| <= |path| && path[..|prefix|] == prefix
  }

  lemma StartsIff(path: string, prefixes: seq<string>)
    ensures StartsWithAny(path, prefixes) <==> exists p :: p in prefixes && Begins(path, p)
  {
    if i :| 0 <= i < |prefixes| && prefixes[i] <= path { assert prefixes[i] in prefixes && Begins(path, prefixes[i]); }
    if p :| p in prefixes && Begins(path, p) {
      var i :| 0 <= i < |prefixes| && prefixes[i] == p;
      assert prefixes[i] <= path;
    }
  }

  lemma BeginsSplit(path: string, a: string, b: string)
    ensures Begins(path, a + b) <==> Begins(path, a) && Begins(path[|a|..], b)
  {
    if |a + b| <= |path| {
      assert path[..|a + b|] == path[..|a|] + path[|a|..][..|b|];
      if path[..|a + b|] == a + b {
        assert path[..|a|] == path[..|a + b|][..|a|] == a;
        assert path[|a|..][..|b|] == path[..|a + b|][|a|..] == b;
      }
    }
  }

  const AUTH := "/api/v1/auth/"

  /** What follows the common beginning of the paths about signing in. */
  const AUTH_ENDS := [
    "native/", "sign-in", "sign-up", "refresh", "sign-out", "sign-out-all", "node-link/", "device-link/",
    "dev-bootstrap"]

  lemma AuthPath(path: string, i: nat)
    requires i < 9
    ensures Begins(path, AUTH_PATHS[i]) <==> Begins(path, AUTH) && Begins(path[13..], AUTH_ENDS[i])
  {
    assert AUTH_PATHS[i] == AUTH + AUTH_ENDS[i];
    BeginsSplit(path, AUTH, AUTH_ENDS[i]);
  }

  lemma AuthLong(path: string)
    ensures Begins(path, AUTH) ==> |path| >= 13
  {}

  lemma BeginsLonger(path: string)
    ensures Begins(path, "sign-out-all") ==> Begins(path, "sign-out")
  {
    BeginsSplit(path, "sign-out", "-all");
    assert "sign-out" + "-all" == "sign-out-all";
  }

  lemma AuthIff(path: string)
    ensures StartsWithAny(path, AUTH_PATHS) <==>
      Begins(path, AUTH) && var rest := path[13..];
        Begins(rest, "native/") || Begins(rest, "sign-in") || Begins(rest, "sign-up") || Begins(rest, "sign-out")
        || Begins(rest, "refresh") || Begins(rest, "node-link/") || Begins(rest, "device-link/")
        || Begins(rest, "dev-bootstrap")
  {
    AuthLong(path);
    if i :| 0 <= i < |AUTH_PATHS| && AUTH_PATHS[i] <= path {
      assert Begins(path, AUTH_PATHS[i]);
      AuthPath(path, i);
      EndListed(i);
      BeginsLonger(path[13..]);
    }
    if Begins(path, AUTH) {
      forall i: nat | i < 9 && Begins(path[13..], AUTH_ENDS[i]) ensures StartsWithAny(path, AUTH_PATHS) {
        AuthPath(path, i);
        assert AUTH_PATHS[i] <= path;
      }
      EndsAre();
    }
  }

  lemma EndListed(i: nat)
    requires i < 9
    ensures AUTH_ENDS[i] in {"native/", "sign-in", "sign-up", "refresh", "sign-out", "sign-out-all", "node-link/",
                             "device-link/", "dev-bootstrap"}
  {}

  lemma EndsAre()
    ensures AUTH_ENDS[0] == "native/" && AUTH_ENDS[1] == "sign-in" && AUTH_ENDS[2] == "sign-up"
      && AUTH_ENDS[3] == "refresh"
    ensures AUTH_ENDS[4] == "sign-out" && AUTH_ENDS[6] == "node-link/" && AUTH_ENDS[7] == "device-link/"
    ensures AUTH_ENDS[8] == "dev-bootstrap"
  {}

  /** Which paths are counted, and as what: signing in and out and the links to other devices and
      nodes on the one hand, sync and integrations on the other. All others pass uncounted. */
  lemma ClassifyIff(path: string)
    ensures Classify(path) == Some(Auth) <==>
      Begins(path, "/api/v1/auth/") && var rest := path[13..];
        Begins(rest, "native/") || Begins(rest, "sign-in") || Begins(rest, "sign-up") || Begins(rest, "sign-out")
        || Begins(rest, "refresh") || Begins(rest, "node-link/") || Begins(rest, "device-link/")
        || Begins(rest, "dev-bootstrap")
    ensures Classify(path) == Some(Sensitive) <==> Begins(path, "/api/v1/sync") || Begins(path, "/api/v1/integrations/")
  {
    AuthIff(path);
    StartsIff(path, SENSITIVE_PATHS);
    assert SENSITIVE_PATHS[0] in SENSITIVE_PATHS && SENSITIVE_PATHS[1] in SENSITIVE_PATHS;
    Elsewhere(path);
  }

  /** The two groups of paths differ in their ninth character. */
  lemma Elsewhere(path: string)
    ensures Begins(path, "/api/v1/sync") || Begins(path, "/api/v1/integrations/") ==> !Begins(path, AUTH)
  {
    if Begins(path, AUTH) { assert path[8] == path[..13][8] == 'a'; }
    if Begins(path, "/api/v1/sync") { assert path[8] == path[..12][8] == 's'; }
    if Begins(path, "/api/v1/integrations/") { assert path[8] == path[..21][8] == 'i'; }
  }

  // One request.

  /** The clock never runs backwards; an age below zero counts as none. */
  function Age(b: Bucket, now: nat): nat {
    if now >= b.start then now - b.start else 0
  }

  function Retained(c: Config, s: Store, category: Category, now: nat): Store {
    map k | k in s && Age(s[k], now) < 2 * Window(c, category) :: s[k]
  }

  /** The bucket a request is counted in: a new one, a fresh start, or the running one. */
  function Current(c: Config, s: Store, r: Request): Bucket {
    if r.key in s && Age(s[r.key], r.at) < Window(c, r.key.category) then s[r.key] else Bucket(r.at, 0)
  }

  /** Counting alone, with nothing ever dropped. */
  function Counted(c: Config, s: Store, r: Request): (Store, bool) {
    var b := Current(c, s, r);
    (s[r.key := Bucket(b.start, b.count + 1)], b.count + 1 <= Limit(c, r.key.category))
  }

  function Handle(c: Config, s: Store, r: Request): (Store, bool) {
    Counted(c, Retained(c, s, r.key.category, r.at), r)
  }

  // Runs, with and without dropping buckets.

  function Stored(c: Config, rs: seq<Request>): Store {
    if rs == [] then map[] else Handle(c, Stored(c, rs[..|rs| - 1]), rs[|rs| - 1]).0
  }

  function Answer(c: Config, rs: seq<Request>): bool
    requires rs != []
  {
    Handle(c, Stored(c, rs[..|rs| - 1]), rs[|rs| - 1]).1
  }

  function Kept(c: Config, rs: seq<Request>): Store {
    if rs == [] then map[] else Counted(c, Kept(c, rs[..|rs| - 1]), rs[|rs| - 1]).0
  }

  function PlainAnswer(c: Config, rs: seq<Request>): bool
    requires rs != []
  {
    Counted(c, Kept(c, rs[..|rs| - 1]), rs[|rs| - 1]).1
  }

  ghost predicate InOrder(rs: seq<Request>) {
    forall i, j :: 0 <= i < j < |rs| ==> rs[i].at <= rs[j].at
  }

  /** The other category cannot drop a bucket that is still within its window. */
  predicate Tame(c: Config, category: Category) {
    Limit(c, category) == 0 || Window(c, category) <= 2 * Window(c, Other(category))
  }

  predicate AgreesAt(c: Config, a: Store, b: Store, now: nat, k: Key) {
    Limit(c, k.category) > 0 ==>
      (k in b ==> b[k].start <= now) && (k in a ==> k in b && a[k] == b[k])
        && (k in b && k !in a ==> now >= b[k].start + Window(c, k.category))
  }

  /** What was dropped had expired; the rest is the same. */
  ghost predicate Agrees(c: Config, a: Store, b: Store, now: nat, category: Category) {
    forall k: Key :: k.category == category ==> AgreesAt(c, a, b, now, k)
  }

  lemma StepAgrees(c: Config, a: Store, b: Store, before: nat, r: Request, category: Category)
    requires Tame(c, category) && before <= r.at && Agrees(c, a, b, before, category)
    ensures Agrees(c, Handle(c, a, r).0, Counted(c, b, r).0, r.at, category)
    ensures r.key.category == category ==> Handle(c, a, r).1 == Counted(c, b, r).1
  {
    forall k: Key | k.category == category ensures AgreesAt(c, Handle(c, a, r).0, Counted(c, b, r).0, r.at, k) {
      assert AgreesAt(c, a, b, before, k);
    }
    if r.key.category == category { assert AgreesAt(c, a, b, before, r.key); }
  }

  lemma {:induction false} RunAgrees(c: Config, rs: seq<Request>, category: Category)
    requires InOrder(rs) && Tame(c, category)
    ensures Agrees(c, Stored(c, rs), Kept(c, rs), if rs == [] then 0 else rs[|rs| - 1].at, category)
    ensures rs != [] && rs[|rs| - 1].key.category == category ==> Answer(c, rs) == PlainAnswer(c, rs)
  {
    hide Handle, Counted;
    if rs != [] {
      var front := rs[..|rs| - 1];
      RunAgrees(c, front, category);
      StepAgrees(c, Stored(c, front), Kept(c, front), if front == [] then 0 else front[|front| - 1].at, rs[|rs| - 1],
        category);
    }
  }

  // Bursts of one client.

  function Burst(k: Key, at: nat, n: nat): seq<Request> {
    if n == 0 then [] else Burst(k, at, n - 1) + [Request(k, at)]
  }

  predicate Running(c: Config, s: Store, k: Key, at: nat, n: nat) {
    if n == 0 then k !in s || Age(s[k], at) >= Window(c, k.category)
    else k in s && s[k] == Bucket(at, n)
  }

  lemma BurstStep(c: Config, s: Store, k: Key, at: nat, n: nat)
    requires Running(c, s, k, at, n) && Window(c, k.category) > 0
    ensures Running(c, Counted(c, s, Request(k, at)).0, k, at, n + 1)
      && Running(c, Handle(c, s, Request(k, at)).0, k, at, n + 1)
    ensures Counted(c, s, Request(k, at)).1 == Handle(c, s, Request(k, at)).1 == (n + 1 <= Limit(c, k.category))
  {}

  lemma {:induction false} BurstRuns(c: Config, rs: seq<Request>, k: Key, at: nat, n: nat)
    requires Window(c, k.category) > 0
    ensures Running(c, Stored(c, rs), k, at, 0) ==> Running(c, Stored(c, rs + Burst(k, at, n)), k, at, n)
    ensures Running(c, Kept(c, rs), k, at, 0) ==> Running(c, Kept(c, rs + Burst(k, at, n)), k, at, n)
  {
    hide Handle, Counted, Running;
    if n == 0 {
      assert rs + Burst(k, at, 0) == rs;
    } else {
      BurstRuns(c, rs, k, at, n - 1);
      Longer(rs, k, at, n);
      var front := rs + Burst(k, at, n - 1);
      if Running(c, Stored(c, rs), k, at, 0) { BurstStep(c, Stored(c, front), k, at, n - 1); }
      if Running(c, Kept(c, rs), k, at, 0) { BurstStep(c, Kept(c, front), k, at, n - 1); }
    }
  }

  lemma Longer(rs: seq<Request>, k: Key, at: nat, n: nat)
    requires n > 0
    ensures var all := rs + Burst(k, at, n);
      all != [] && all[..|all| - 1] == rs + Burst(k, at, n - 1) && all[|all| - 1] == Request(k, at)
  {}

  lemma {:induction false} BurstAt(k: Key, at: nat, n: nat)
    ensures |Burst(k, at, n)| == n && forall i :: 0 <= i < n ==> Burst(k, at, n)[i] == Request(k, at)
  {
    if n > 0 { BurstAt(k, at, n - 1); }
  }

  /** A full bucket, then one request of the other category after two of its windows. */
  function Intruded(c: Config, k: Key): seq<Request> {
    Burst(k, 0, Limit(c, k.category)) + [Intruder(c, k)]
  }

  function Intruder(c: Config, k: Key): Request {
    Request(Key(Other(k.category), k.client, k.origin), 2 * Window(c, Other(k.category)))
  }

  lemma IntrudedStores(c: Config, k: Key)
    requires !Tame(c, k.category)
    ensures var at, rs := 2 * Window(c, Other(k.category)), Intruded(c, k);
      InOrder(rs) && Running(c, Stored(c, rs), k, at, 0) && k in Kept(c, rs)
      && Kept(c, rs)[k] == Bucket(0, Limit(c, k.category))
  {
    var n, rs := Limit(c, k.category), Intruded(c, k);
    BurstAt(k, 0, n);
    assert [] + Burst(k, 0, n) == Burst(k, 0, n);
    BurstRuns(c, [], k, 0, n);
    hide Burst;
    assert rs[..|rs| - 1] == Burst(k, 0, n);
    IntruderDrops(c, Stored(c, Burst(k, 0, n)), Kept(c, Burst(k, 0, n)), k);
  }

  lemma IntruderDrops(c: Config, a: Store, b: Store, k: Key)
    requires !Tame(c, k.category) && Running(c, a, k, 0, Limit(c, k.category))
    requires Running(c, b, k, 0, Limit(c, k.category))
    ensures Running(c, Handle(c, a, Intruder(c, k)).0, k, 2 * Window(c, Other(k.category)), 0)
    ensures k in Counted(c, b, Intruder(c, k)).0
      && Counted(c, b, Intruder(c, k)).0[k] == Bucket(0, Limit(c, k.category))
  {}

  /** Dropping buckets goes unnoticed, for every sequence of requests, exactly when neither
      category can drop a bucket of the other that is still within its window. */
  ghost predicate Unnoticed(c: Config, category: Category) {
    forall rs: seq<Request> :: rs != [] && InOrder(rs) && rs[|rs| - 1].key.category == category ==>
      Answer(c, rs) == PlainAnswer(c, rs)
  }

  lemma EvictionUnnoticedIff(c: Config, category: Category)
    ensures Unnoticed(c, category) <==> Tame(c, category)
  {
    if Tame(c, category) {
      forall rs: seq<Request> | rs != [] && InOrder(rs) && rs[|rs| - 1].key.category == category
        ensures Answer(c, rs) == PlainAnswer(c, rs)
      {
        RunAgrees(c, rs, category);
      }
    } else {
      var k := Key(category, "", "");
      var at, rs := 2 * Window(c, Other(category)), Intruded(c, k);
      IntrudedStores(c, k);
      BurstStep(c, Stored(c, rs), k, at, 0);
      var all := rs + [Request(k, at)];
      assert all[..|all| - 1] == rs;
      assert Answer(c, all) != PlainAnswer(c, all);
    }
  }

  // The bound.

  /** When a client's requests were let through. */
  function Admitted(c: Config, rs: seq<Request>, k: Key): seq<nat> {
    if rs == [] then []
    else
      var last := rs[|rs| - 1];
      Admitted(c, rs[..|rs| - 1], k) + if last.key == k && Answer(c, rs) then [last.at] else []
  }

  function PlainAdmitted(c: Config, rs: seq<Request>, k: Key): seq<nat> {
    if rs == [] then []
    else
      var last := rs[|rs| - 1];
      PlainAdmitted(c, rs[..|rs| - 1], k) + if last.key == k && PlainAnswer(c, rs) then [last.at] else []
  }

  ghost predicate Sorted(times: seq<nat>) {
    forall i, j :: 0 <= i < j < |times| ==> times[i] <= times[j]
  }

  /** Any `2 * limit` admissions in a row span at least a window. */
  ghost predicate Spread(times: seq<nat>, limit: nat, window: nat) {
    forall i, j :: 0 <= i <= j && j == i + 2 * limit - 1 && j < |times| ==> times[i] + window <= times[j]
  }

  /** The last `m` admissions belong to the running bucket, whose first one started it;
      everything at least `limit` before them is a whole window older. */
  ghost predicate Phase(times: seq<nat>, limit: nat, window: nat, b: Bucket, m: nat) {
    m <= limit && m <= |times| && m <= b.count && (b.count <= limit ==> m == b.count) && m > 0
    && (forall i :: 0 <= i <= |times| - m && i < |times| ==> times[i] <= b.start)
    && (forall i :: 0 <= i && i + m + limit <= |times| ==> times[i] + window <= b.start)
  }

  lemma SameBucket(times: seq<nat>, limit: nat, window: nat, b: Bucket, m: nat, now: nat)
    requires limit >= 1 && Sorted(times) && Spread(times, limit, window) && Phase(times, limit, window, b, m)
    requires b.count + 1 <= limit && now >= b.start && (forall i :: 0 <= i < |times| ==> times[i] <= now)
    ensures Sorted(times + [now]) && Spread(times + [now], limit, window)
    ensures Phase(times + [now], limit, window, Bucket(b.start, b.count + 1), m + 1)
  {
    var more := times + [now];
    forall i, j | 0 <= i <= j && j == i + 2 * limit - 1 && j < |more| ensures more[i] + window <= more[j] {
      if j == |times| { assert i + m + limit <= |times|; }
    }
  }

  lemma NewBucket(times: seq<nat>, limit: nat, window: nat, now: nat, b: Option<Bucket>, m: nat)
    requires limit >= 1 && Sorted(times) && Spread(times, limit, window)
    requires (forall i :: 0 <= i < |times| ==> times[i] <= now)
    requires if b.None? then times == [] else Phase(times, limit, window, b.value, m) && now >= b.value.start + window
    ensures Sorted(times + [now]) && Spread(times + [now], limit, window)
    ensures Phase(times + [now], limit, window, Bucket(now, 1), 1)
  {
    var more := times + [now];
    forall i, j | 0 <= i <= j && j == i + 2 * limit - 1 && j < |more| ensures more[i] + window <= more[j] {
      if j == |times| && b.Some? { assert i <= |times| - m; }
    }
    forall i | 0 <= i && i + 1 + limit <= |more| ensures more[i] + window <= now {
      assert b.Some? && i <= |times| - m;
    }
  }

  /** The state of one client's bucket against its admissions so far. */
  ghost predicate Tracks(c: Config, s: Store, times: seq<nat>, k: Key, now: nat) {
    Sorted(times) && Spread(times, Limit(c, k.category), Window(c, k.category))
    && (forall i :: 0 <= i < |times| ==> times[i] <= now)
    && (if k in s then
          s[k].start <= now && exists m :: Phase(times, Limit(c, k.category), Window(c, k.category), s[k], m)
        else times == [])
  }

  lemma StepTracks(c: Config, s: Store, times: seq<nat>, k: Key, before: nat, r: Request)
    requires Limit(c, k.category) >= 1 && before <= r.at && Tracks(c, s, times, k, before)
    ensures var (t, ok) := Counted(c, s, r);
      Tracks(c, t, times + if r.key == k && ok then [r.at] else [], k, r.at)
  {
    var limit, window := Limit(c, k.category), Window(c, k.category);
    hide Sorted, Spread, Phase;
    if r.key != k {
      assert times + [] == times;
    } else if k in s && Age(s[k], r.at) < window {
      var m :| Phase(times, limit, window, s[k], m);
      if s[k].count + 1 <= limit {
        SameBucket(times, limit, window, s[k], m, r.at);
      } else {
        FullBucket(times, limit, window, s[k], m);
        assert times + [] == times;
      }
    } else if k in s {
      var m :| Phase(times, limit, window, s[k], m);
      NewBucket(times, limit, window, r.at, Some(s[k]), m);
    } else {
      NewBucket(times, limit, window, r.at, None, 0);
    }
  }

  lemma FullBucket(times: seq<nat>, limit: nat, window: nat, b: Bucket, m: nat)
    requires Phase(times, limit, window, b, m) && b.count + 1 > limit
    ensures Phase(times, limit, window, Bucket(b.start, b.count + 1), m)
  {}

  lemma {:induction false} RunTracks(c: Config, rs: seq<Request>, k: Key)
    requires InOrder(rs) && Limit(c, k.category) >= 1
    ensures Tracks(c, Kept(c, rs), PlainAdmitted(c, rs, k), k, if rs == [] then 0 else rs[|rs| - 1].at)
  {
    hide Counted, Tracks, Limit;
    if rs == [] {
      StartTracks(c, k);
    } else {
      var front := rs[..|rs| - 1];
      RunTracks(c, front, k);
      StepTracks(c, Kept(c, front), PlainAdmitted(c, front, k), k, if front == [] then 0 else front[|front| - 1].at,
        rs[|rs| - 1]);
    }
  }

  lemma StartTracks(c: Config, k: Key)
    ensures Tracks(c, map[], [], k, 0)
  {}

  lemma {:induction false} SameAdmitted(c: Config, rs: seq<Request>, k: Key)
    requires InOrder(rs) && Tame(c, k.category)
    ensures Admitted(c, rs, k) == PlainAdmitted(c, rs, k)
  {
    hide Answer, PlainAnswer, Tame;
    if rs != [] {
      SameAdmitted(c, rs[..|rs| - 1], k);
      RunAgrees(c, rs, k.category);
    }
  }

  function CountIn(times: seq<nat>, lo: nat, hi: nat): nat {
    if times == [] then 0
    else CountIn(times[..|times| - 1], lo, hi) + if lo <= times[|times| - 1] < hi then 1 else 0
  }

  lemma {:induction false} CountTail(times: seq<nat>, lo: nat, hi: nat, n: nat)
    requires forall i :: 0 <= i < |times| - n ==> times[i] < lo
    ensures CountIn(times, lo, hi) <= n
  {
    if times != [] {
      var front := times[..|times| - 1];
      if n == 0 {
        assert times[|times| - 1] < lo;
        CountTail(front, lo, hi, 0);
      } else {
        CountTail(front, lo, hi, n - 1);
      }
    }
  }

  lemma {:induction false} CountBounded(times: seq<nat>, limit: nat, window: nat, lo: nat)
    requires limit >= 1 && Sorted(times) && Spread(times, limit, window)
    ensures CountIn(times, lo, lo + window) <= 2 * limit - 1
  {
    if times != [] {
      var front, last := times[..|times| - 1], |times| - 1;
      if lo <= times[last] < lo + window {
        forall i | 0 <= i < |times| - (2 * limit - 1) ensures times[i] < lo {
          var j := last - (2 * limit - 1);
          assert times[j] + window <= times[last];
          assert i < j ==> times[i] <= times[j];
        }
        CountTail(times, lo, lo + window, 2 * limit - 1);
      } else {
        CountBounded(front, limit, window, lo);
      }
    }
  }

  /** What the limiter may let through in one window's time, whenever that window begins. */
  ghost predicate Bounded(c: Config, k: Key) {
    forall rs: seq<Request>, lo: nat :: InOrder(rs) ==> WithinBound(c, rs, k, lo)
  }

  predicate WithinBound(c: Config, rs: seq<Request>, k: Key, lo: nat) {
    CountIn(Admitted(c, rs, k), lo, lo + Window(c, k.category)) <= MostAdmitted(c, k.category)
  }

  function MostAdmitted(c: Config, category: Category): nat {
    if Limit(c, category) == 0 then 0 else 2 * Limit(c, category) - 1
  }

  lemma {:induction false} NoneAdmitted(c: Config, rs: seq<Request>, k: Key)
    requires Limit(c, k.category) == 0
    ensures Admitted(c, rs, k) == []
  {
    if rs != [] { NoneAdmitted(c, rs[..|rs| - 1], k); }
  }

  lemma TameBounded(c: Config, k: Key, rs: seq<Request>, lo: nat)
    requires Tame(c, k.category) && InOrder(rs)
    ensures WithinBound(c, rs, k, lo)
  {
    if Limit(c, k.category) == 0 {
      NoneAdmitted(c, rs, k);
    } else {
      RunTracks(c, rs, k);
      SameAdmitted(c, rs, k);
      CountBounded(PlainAdmitted(c, rs, k), Limit(c, k.category), Window(c, k.category), lo);
    }
  }

  // Without the condition a burst, an intruder and another burst exceed the bound.

  lemma {:induction false} BurstAdmitted(c: Config, rs: seq<Request>, k: Key, at: nat, n: nat)
    requires Running(c, Stored(c, rs), k, at, 0) && Window(c, k.category) > 0 && n <= Limit(c, k.category)
    ensures Admitted(c, rs + Burst(k, at, n), k) == Admitted(c, rs, k) + seq(n, _ => at)
  {
    hide Handle, Running, Stored;
    if n == 0 {
      assert rs + Burst(k, at, 0) == rs;
    } else {
      BurstAdmitted(c, rs, k, at, n - 1);
      Longer(rs, k, at, n);
      BurstRuns(c, rs, k, at, n - 1);
      BurstStep(c, Stored(c, rs + Burst(k, at, n - 1)), k, at, n - 1);
    }
  }

  lemma {:induction false} CountAll(times: seq<nat>, lo: nat, hi: nat)
    requires forall i :: 0 <= i < |times| ==> lo <= times[i] < hi
    ensures CountIn(times, lo, hi) == |times|
  {
    if times != [] { CountAll(times[..|times| - 1], lo, hi); }
  }

  lemma WildExceeds(c: Config, k: Key) returns (rs: seq<Request>)
    requires !Tame(c, k.category)
    ensures InOrder(rs) && !WithinBound(c, rs, k, 0)
  {
    var n, at := Limit(c, k.category), 2 * Window(c, Other(k.category));
    rs := Intruded(c, k) + Burst(k, at, n);
    IntrudedStores(c, k);
    WildAdmitted(c, k, n, at);
    WildInOrder(c, k, n, at);
    hide Admitted, InOrder, Intruded, Burst;
    CountAll(Admitted(c, rs, k), 0, Window(c, k.category));
  }

  lemma WildAdmitted(c: Config, k: Key, n: nat, at: nat)
    requires !Tame(c, k.category) && n == Limit(c, k.category) && at == 2 * Window(c, Other(k.category))
    ensures var times := Admitted(c, Intruded(c, k) + Burst(k, at, n), k);
      |times| == 2 * n > MostAdmitted(c, k.category)
        && forall i :: 0 <= i < |times| ==> 0 <= times[i] < 0 + Window(c, k.category)
  {
    hide Stored, Handle, Answer;
    IntrudedStores(c, k);
    FirstAdmitted(c, k, n);
    BurstAdmitted(c, Intruded(c, k), k, at, n);
  }

  lemma FirstAdmitted(c: Config, k: Key, n: nat)
    requires !Tame(c, k.category) && n == Limit(c, k.category)
    ensures Admitted(c, Intruded(c, k), k) == seq(n, _ => 0)
  {
    hide Handle, Answer;
    var first, middle := Burst(k, 0, n), Intruded(c, k);
    assert [] + first == first;
    BurstAdmitted(c, [], k, 0, n);
    assert middle[..|middle| - 1] == first;
    assert Admitted(c, [], k) == [];
    assert [] + seq(n, _ => 0) == seq(n, _ => 0);
  }

  lemma WildInOrder(c: Config, k: Key, n: nat, at: nat)
    requires n == Limit(c, k.category) && at == 2 * Window(c, Other(k.category))
    ensures InOrder(Intruded(c, k) + Burst(k, at, n))
  {
    BurstAt(k, 0, n);
    BurstAt(k, at, n);
  }

  /** At most twice the limit less one in any window's length of time, over all request
      sequences, exactly when the other category cannot drop a running bucket. */
  lemma BoundedIff(c: Config, k: Key)
    ensures Bounded(c, k) <==> Tame(c, k.category)
  {
    if Tame(c, k.category) {
      forall rs: seq<Request>, lo: nat | InOrder(rs) ensures WithinBound(c, rs, k, lo) {
        TameBounded(c, k, rs, lo);
      }
    } else {
      var rs := WildExceeds(c, k);
    }
  }

  predicate AtMost(c: Config, rs: seq<Request>, k: Key, lo: nat, window: nat, limit: nat) {
    CountIn(Admitted(c, rs, k), lo, lo + window) <= if limit == 0 then 0 else 2 * limit - 1
  }

  /** The same by the settings: signing in goes by its own limit and window, and so does the rest. */
  lemma BoundedBySettings(c: Config, client: string, origin: string)
    ensures (forall rs: seq<Request>, lo: nat :: InOrder(rs) ==>
        AtMost(c, rs, Key(Auth, client, origin), lo, c.authWindow, c.authLimit)) <==>
      c.authLimit == 0 || c.authWindow <= 2 * c.sensitiveWindow
    ensures (forall rs: seq<Request>, lo: nat :: InOrder(rs) ==>
        AtMost(c, rs, Key(Sensitive, client, origin), lo, c.sensitiveWindow, c.sensitiveLimit)) <==>
      c.sensitiveLimit == 0 || c.sensitiveWindow <= 2 * c.authWindow
  {
    hide Admitted, CountIn, InOrder;
    var a, s := Key(Auth, client, origin), Key(Sensitive, client, origin);
    BoundedIff(c, a);
    BoundedIff(c, s);
    assert forall rs: seq<Request>, lo: nat ::
      AtMost(c, rs, a, lo, c.authWindow, c.authLimit) <==> WithinBound(c, rs, a, lo);
    assert forall rs: seq<Request>, lo: nat ::
      AtMost(c, rs, s, lo, c.sensitiveWindow, c.sensitiveLimit) <==> WithinBound(c, rs, s, lo);
  }

  // The middleware, which keeps the buckets in place.

  class Limiter {
    const config: Config
    var buckets: Store

    constructor (config: Config)
      ensures this.config == config && buckets == map[]
    {
      this.config, buckets := config, map[];
    }

    method Middleware(path: string, client: string, origin: string, now: nat) returns (admitted: bool)
      modifies this
      ensures match Classify(path)
        case None => admitted && buckets == old(buckets)
        case Some(category) =>
          (buckets, admitted) == Handle(config, old(buckets), Request(Key(category, client, origin), now))
    {
      var classified := Classify(path);
      if classified.None? { return true; }
      var category := classified.value;
      var window, limit := Window(config, category), Limit(config, category);
      buckets := Retained(config, buckets, category, now);
      var key := Key(category, client, origin);
      var bucket := if key in buckets then buckets[key] else Bucket(now, 0);
      if Age(bucket, now) >= window { bucket := Bucket(now, 0); }
      bucket := Bucket(bucket.start, bucket.count + 1);
      buckets := buckets[key := bucket];
      return bucket.count <= limit;
    }
  }
}
