// The idempotency-key wrapper around every mutating route (core/api/deps.py), over any
// state and any handler that either raises (None) or returns a new state and a response.
//
// The response a handler returns is never null, and a stored record is never empty, so a
// key that is stored always replays or conflicts.
module Idempotency {
  import opened Domain

  datatype Request<Body> = Request(key: Option<string>, route: string, actor: string, body: Body)

  datatype Record<Hash, Response> = Record(route: string, actor: string, hash: Hash, response: Response)

  datatype Reply<Response> =
    | MissingKey               // 400
    | Conflict                 // 409
    | Raised                   // whatever the handler raised; rolled back
    | Replayed(again: Response)
    | Answered(response: Response)

  datatype Served<State, Hash, Response> = Served(state: State, keys: map<string, Record<Hash, Response>>)

  type Handler<!State, !Body, Response> = (State, string, Body) -> Option<(State, Response)>

  // What the wrapper is configured with.
  datatype Api<!State, !Body, Hash(==), Response> = Api(handler: Handler<State, Body, Response>, hash: Body -> Hash)

  predicate HasKey<Body>(r: Request<Body>) {
    r.key.Some? && r.key.value != ""
  }

  // One request: the new state and the reply.
  function Serve<State, Body, Hash(==), Response>(
    api: Api<State, Body, Hash, Response>, s: Served<State, Hash, Response>, r: Request<Body>)
    : (Served<State, Hash, Response>, Reply<Response>)
  {
    if !HasKey(r) then (s, MissingKey)
    else if r.key.value in s.keys then
      if s.keys[r.key.value].hash != api.hash(r.body) then (s, Conflict)
      else (s, Replayed(s.keys[r.key.value].response))
    else
      var done := api.handler(s.state, r.route, r.body);
      if done.None? then (s, Raised)
      else
        (Served(done.value.0, s.keys[r.key.value := Record(r.route, r.actor, api.hash(r.body), done.value.1)]),
         Reply.Answered(done.value.1))
  }

  function After<State, Body, Hash(==), Response>(
    api: Api<State, Body, Hash, Response>, s: Served<State, Hash, Response>, rs: seq<Request<Body>>)
    : Served<State, Hash, Response>
  {
    if rs == [] then s else Serve(api, After(api, s, rs[..|rs| - 1]), rs[|rs| - 1]).0
  }

  // ---- the same state machine without the wrapper

  function Bare<State, Body, Hash, Response>(
    api: Api<State, Body, Hash, Response>, state: State, r: Request<Body>): State
  {
    var done := api.handler(state, r.route, r.body);
    if done.None? then state else done.value.0
  }

  function AfterBare<State, Body, Hash, Response>(
    api: Api<State, Body, Hash, Response>, state: State, rs: seq<Request<Body>>): State
  {
    if rs == [] then state else Bare(api, AfterBare(api, state, rs[..|rs| - 1]), rs[|rs| - 1])
  }

  // Does this request reach its handler?
  predicate Runs<State, Body, Hash, Response>(s: Served<State, Hash, Response>, r: Request<Body>) {
    HasKey(r) && r.key.value !in s.keys
  }

  // The requests of a trace whose key was not already stored.
  function Firsts<State, Body, Hash(==), Response>(
    api: Api<State, Body, Hash, Response>, s: Served<State, Hash, Response>, rs: seq<Request<Body>>): seq<Request<Body>>
  {
    if rs == [] then []
    else
      var init := rs[..|rs| - 1];
      Firsts(api, s, init) + if Runs(After(api, s, init), rs[|rs| - 1]) then [rs[|rs| - 1]] else []
  }

  // The final state is that of running only the requests whose key was not already stored,
  // with no wrapper at all.
  lemma {:induction false} ReplayEquivalence<State, Body, Hash, Response>(
    api: Api<State, Body, Hash, Response>, s: Served<State, Hash, Response>, rs: seq<Request<Body>>)
    ensures After(api, s, rs).state == AfterBare(api, s.state, Firsts(api, s, rs))
  {
    if rs != [] {
      var init := rs[..|rs| - 1];
      var firsts := Firsts(api, s, init);
      ReplayEquivalence(api, s, init);
      if Runs(After(api, s, init), rs[|rs| - 1]) {
        assert (firsts + [rs[|rs| - 1]])[..|firsts|] == firsts;
      } else {
        assert Firsts(api, s, rs) == firsts;
      }
    }
  }

  // Sending only those requests leaves the very same records behind, too.
  lemma {:induction false} FirstsAreEnough<State, Body, Hash, Response>(
    api: Api<State, Body, Hash, Response>, s: Served<State, Hash, Response>, rs: seq<Request<Body>>)
    ensures After(api, s, Firsts(api, s, rs)) == After(api, s, rs)
  {
    if rs != [] {
      var init := rs[..|rs| - 1];
      var firsts := Firsts(api, s, init);
      FirstsAreEnough(api, s, init);
      if Runs(After(api, s, init), rs[|rs| - 1]) {
        assert (firsts + [rs[|rs| - 1]])[..|firsts|] == firsts;
      } else {
        assert Firsts(api, s, rs) == firsts;
      }
    }
  }

  // ---- what a key remembers

  // A stored record is never changed or dropped.
  lemma {:induction false} RecordsStay<State, Body, Hash, Response>(
    api: Api<State, Body, Hash, Response>, s: Served<State, Hash, Response>, rs: seq<Request<Body>>, n: nat,
        key: string)
    requires n <= |rs| && key in After(api, s, rs[..n]).keys
    ensures key in After(api, s, rs).keys && After(api, s, rs).keys[key] == After(api, s, rs[..n]).keys[key]
    decreases |rs|
  {
    if n == |rs| {
      assert rs[..n] == rs;
    } else {
      var init := rs[..|rs| - 1];
      assert init[..n] == rs[..n];
      RecordsStay(api, s, init, n, key);
    }
  }

  // The reply to request i of a trace.
  function ReplyTo<State, Body, Hash(==), Response>(
    api: Api<State, Body, Hash, Response>, s: Served<State, Hash, Response>, rs: seq<Request<Body>>,
        i: nat): Reply<Response>
    requires i < |rs|
  {
    Serve(api, After(api, s, rs[..i]), rs[i]).1
  }

  // Once a request has been answered, every later one under its key is refused if its body
  // hashes differently and otherwise gets the first answer again, whatever route it was
  // sent to; either way nothing changes.
  lemma RepeatsAreAnsweredOnce<State, Body, Hash, Response>(
    api: Api<State, Body, Hash, Response>, s: Served<State, Hash, Response>, rs: seq<Request<Body>>, i: nat, j: nat)
    requires i < j < |rs| && ReplyTo(api, s, rs, i).Answered? && rs[j].key == rs[i].key
    ensures ReplyTo(api, s, rs, j) ==
              if api.hash(rs[j].body) == api.hash(rs[i].body) then Replayed(ReplyTo(api, s, rs, i).response)
                  else Conflict
    ensures After(api, s, rs[..j + 1]) == After(api, s, rs[..j])
  {
    assert rs[..i + 1][..i] == rs[..i];
    assert rs[..j][..i + 1] == rs[..i + 1];
    RecordsStay(api, s, rs[..j], i + 1, rs[i].key.value);
    assert rs[..j + 1][..j] == rs[..j];
  }

  // A request whose handler raises stores nothing: the next one under its key, if nothing
  // ran in between, meets the same state and reaches the handler again.
  lemma RaisingStoresNothing<State, Body, Hash, Response>(
    api: Api<State, Body, Hash, Response>, s: Served<State, Hash, Response>, rs: seq<Request<Body>>, i: nat)
    requires i < |rs| && ReplyTo(api, s, rs, i).Raised?
    ensures After(api, s, rs[..i + 1]) == After(api, s, rs[..i])
    ensures forall r: Request<Body> | r.key == rs[i].key :: Runs(After(api, s, rs[..i + 1]), r)
  {
    assert rs[..i + 1][..i] == rs[..i];
  }

  // Each key is answered by a handler at most once in any trace.
  lemma AnsweredOncePerKey<State, Body, Hash, Response>(
    api: Api<State, Body, Hash, Response>, s: Served<State, Hash, Response>, rs: seq<Request<Body>>, i: nat, j: nat)
    requires i < |rs| && j < |rs| && rs[i].key == rs[j].key
    requires ReplyTo(api, s, rs, i).Answered? && ReplyTo(api, s, rs, j).Answered?
    ensures i == j
  {
    if i < j {
      RepeatsAreAnsweredOnce(api, s, rs, i, j);
    } else if j < i {
      RepeatsAreAnsweredOnce(api, s, rs, j, i);
    }
  }

  // ---- the wrapper in place

  class Server<!State, !Body, Hash(==), Response> {
    const api: Api<State, Body, Hash, Response>
    var state: State
    var keys: map<string, Record<Hash, Response>>

    constructor (api: Api<State, Body, Hash, Response>, state: State)
      ensures this.api == api && View() == Served(state, map[])
    {
      this.api, this.state, keys := api, state, map[];
    }

    function View(): Served<State, Hash, Response>
      reads this
    {
      Served(state, keys)
    }

    // Store the response, unless this key already has a record.
    method Store(key: string, route: string, actor: string, hash: Hash, response: Response)
      modifies this
      ensures state == old(state)
      ensures keys == if key in old(keys) then old(keys) else old(keys)[key := Record(route, actor, hash, response)]
    {
      if key !in keys {
        keys := keys[key := Record(route, actor, hash, response)];
      }
    }

    // Look the key up, run the handler in a transaction, store what it answered.
    method Handle(r: Request<Body>) returns (reply: Reply<Response>)
      modifies this
      ensures (View(), reply) == Serve(api, old(View()), r)
    {
      if r.key.None? || r.key.value == "" {
        return MissingKey;
      }
      var key, hash := r.key.value, api.hash(r.body);
      if key in keys {
        if keys[key].hash != hash {
          return Conflict;
        }
        return Replayed(keys[key].response);
      }
      var done := api.handler(state, r.route, r.body);
      if done.None? {
        return Raised;
      }
      state := done.value.0;
      Store(key, r.route, r.actor, hash, done.value.1);
      return Reply.Answered(done.value.1);
    }
  }
}
