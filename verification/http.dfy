/**
 * The parts of Go's `net/url` and `net/http` that the client touches, as far
 * as they matter to it: the `url.Values` parameter multimap, the two kinds of
 * request the transport issues, and a stand-in for the network that records
 * every request and answers it with a fixed reply function.
 */
module Http {
  import opened Wrappers

  /** One `Add(key, value)` call on a `url.Values`. */
  type Pair = (string, string)

  /** `values[key]` of the Go multimap built by the `Add` calls in `pairs`:
      every value added under `key`, oldest first. */
  function ValuesOf(pairs: seq<Pair>, key: string): seq<string>
  {
    if pairs == [] then []
    else ValuesOf(pairs[..|pairs| - 1], key)
         + (if pairs[|pairs| - 1].0 == key then [pairs[|pairs| - 1].1] else [])
  }

  /** The multimap view of a concatenation of `Add` logs. */
  lemma {:induction false} ValuesOfAppend(p: seq<Pair>, q: seq<Pair>, key: string)
    ensures ValuesOf(p + q, key) == ValuesOf(p, key) + ValuesOf(q, key)
    decreases |q|
  {
    if q == [] {
      assert p + q == p;
    } else {
      var q' := q[..|q| - 1];
      assert (p + q)[..|p + q| - 1] == p + q';
      ValuesOfAppend(p, q', key);
    }
  }

  /** The multimap view of a single `Add`. */
  lemma ValuesOfSingle(k: string, v: string, key: string)
    ensures ValuesOf([(k, v)], key) == if k == key then [v] else []
  {
    assert [(k, v)][..0] == [];
  }

  /** A key that was never added has no values. */
  lemma {:induction false} ValuesOfAbsent(pairs: seq<Pair>, key: string)
    requires forall j :: 0 <= j < |pairs| ==> pairs[j].0 != key
    ensures ValuesOf(pairs, key) == []
    decreases |pairs|
  {
    if pairs != [] {
      ValuesOfAbsent(pairs[..|pairs| - 1], key);
    }
  }

  /** A key added exactly once has exactly that one value. */
  lemma {:induction false} ValuesOfUnique(pairs: seq<Pair>, i: nat)
    requires i < |pairs|
    requires forall j :: 0 <= j < |pairs| && j != i ==> pairs[j].0 != pairs[i].0
    ensures ValuesOf(pairs, pairs[i].0) == [pairs[i].1]
    decreases |pairs|
  {
    var init := pairs[..|pairs| - 1];
    if i == |pairs| - 1 {
      ValuesOfAbsent(init, pairs[i].0);
    } else {
      ValuesOfUnique(init, i);
    }
  }

  /** `url.Values`: the map from keys to value lists that `Add` grows in
      place. The model keeps the sequence of `Add` calls, which also fixes the
      order the values were added in; `At` is the map view. */
  class Values {
    var pairs: seq<Pair>

    /** `url.Values{}` */
    constructor ()
      ensures pairs == []
    {
      pairs := [];
    }

    function At(key: string): seq<string>
      reads this
    {
      ValuesOf(pairs, key)
    }

    /** `Add` appends `value` to the list of `key` and leaves every other key alone. */
    method Add(key: string, value: string)
      modifies this
      ensures pairs == old(pairs) + [(key, value)]
      ensures At(key) == old(At(key)) + [value]
      ensures forall k :: k != key ==> At(k) == old(At(k))
    {
      pairs := pairs + [(key, value)];
    }
  }

  /** A request as the transport issues it. `Get(url, query)` is a GET of
      `url + "?" + Encode(query)`; `PostForm(url, form)` is a POST of the
      form-encoded `form`. */
  datatype Request =
    | Get(url: string, query: seq<Pair>)
    | PostForm(url: string, form: seq<Pair>)

  /** A response: the status code and the outcome of reading the body. */
  datatype Reply = Reply(status: int, body: Result<string, string>)

  /** The network as the client sees it. `respond` says what each request
      gets back (a reply or a transport error message); `sent` records every
      request made, oldest first. */
  class Network {
    var sent: seq<Request>
    const respond: Request -> Result<Reply, string>

    constructor (respond: Request -> Result<Reply, string>)
      ensures sent == [] && this.respond == respond
    {
      this.respond := respond;
      sent := [];
    }

    method Do(req: Request) returns (res: Result<Reply, string>)
      modifies this`sent
      ensures sent == old(sent) + [req]
      ensures res == respond(req)
    {
      sent := sent + [req];
      res := respond(req);
    }
  }
}
