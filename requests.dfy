/**
 * The HTTP transport of the Measurement Protocol: payload encoding, the
 * single-hit request that posts every hit to the collect endpoint, and the
 * batching request that buffers hits and posts them twenty at a time to the
 * batch endpoint. The HTTP session is modelled by the log of its posts and a
 * closed flag.
 */
module Requests {
  import opened Python

  const DefaultUserAgent: string := "Universal Analytics"
  const CollectEndpoint: string := "https://www.google-analytics.com/collect"
  const BatchEndpoint: string := "https://www.google-analytics.com/batch"
  const MaxBatchSize: nat := 20

  /** What `send` can be given: one dict, or (from the batching request) a list of dicts. */
  datatype Payload = Single(hit: Dict) | Batch(hits: seq<Dict>)

  /** The hits a payload carries, as encode_payload wraps a lone dict into a list. */
  function Hits(p: Payload): seq<Dict> {
    match p
    case Single(d) => [d]
    case Batch(ds) => ds
  }

  /** "\n".join(parts) */
  function Join(parts: seq<string>): string
  {
    if parts == [] then ""
    else if |parts| == 1 then parts[0]
    else parts[0] + "\n" + Join(parts[1..])
  }

  /** s.split("\n") */
  function Split(s: string): (parts: seq<string>)
    ensures |parts| >= 1
  {
    if s == [] then [""]
    else
      var rest := Split(s[1..]);
      if s[0] == '\n' then [""] + rest else [[s[0]] + rest[0]] + rest[1..]
  }

  /** encode_payload: the urlencoded hits, one per line. */
  function EncodePayload(urlencode: Dict -> string, p: Payload): string
  {
    Join(seq(|Hits(p)|, i requires 0 <= i < |Hits(p)| => urlencode(Hits(p)[i])))
  }

  /** A lone dict is encoded exactly as the one-element list holding it. */
  lemma SingleIsBatchOfOne(urlencode: Dict -> string, d: Dict)
    ensures EncodePayload(urlencode, Single(d)) == EncodePayload(urlencode, Batch([d]))
    ensures EncodePayload(urlencode, Single(d)) == urlencode(d)
  {
  }

  lemma {:induction false} SplitWithoutNewline(a: string)
    requires '\n' !in a
    ensures Split(a) == [a]
  {
    if a != [] {
      SplitWithoutNewline(a[1..]);
      assert [a[0]] + a[1..] == a;
    }
  }

  lemma {:induction false} SplitAtNewline(a: string, b: string)
    requires '\n' !in a
    ensures Split(a + "\n" + b) == [a] + Split(b)
  {
    if a == [] {
      assert a + "\n" + b == ['\n'] + b;
      assert (['\n'] + b)[1..] == b;
    } else {
      assert (a + "\n" + b)[1..] == a[1..] + "\n" + b;
      SplitAtNewline(a[1..], b);
      assert [a[0]] + a[1..] == a;
    }
  }

  /** Splitting the join of newline-free parts gives the parts back. */
  lemma {:induction false} SplitJoin(parts: seq<string>)
    requires parts != []
    requires forall i :: 0 <= i < |parts| ==> '\n' !in parts[i]
    ensures Split(Join(parts)) == parts
  {
    if |parts| == 1 {
      SplitWithoutNewline(parts[0]);
    } else {
      SplitAtNewline(parts[0], Join(parts[1..]));
      SplitJoin(parts[1..]);
      assert [parts[0]] + parts[1..] == parts;
    }
  }

  /**
   * Since urlencode never emits a line break, the body of a post determines
   * the encoding of every hit it carries, one per line and in order.
   */
  lemma DecodePayload(urlencode: Dict -> string, p: Payload)
    requires forall d :: '\n' !in urlencode(d)
    requires Hits(p) != []
    ensures var lines := Split(EncodePayload(urlencode, p));
      |lines| == |Hits(p)| && forall i :: 0 <= i < |lines| ==> lines[i] == urlencode(Hits(p)[i])
  {
    SplitJoin(seq(|Hits(p)|, i requires 0 <= i < |Hits(p)| => urlencode(Hits(p)[i])));
  }

  /** user_agent or default_user_agent: an absent or empty agent falls back to the default. */
  function UserAgentOr(userAgent: Option<string>): (ua: string)
    ensures ua != ""
    ensures userAgent.Some? && userAgent.value != "" ==> ua == userAgent.value
    ensures userAgent.None? || userAgent.value == "" ==> ua == DefaultUserAgent
  {
    match userAgent
    case Some(s) => if s != "" then s else DefaultUserAgent
    case None => DefaultUserAgent
  }

  /** One session.post(url, data=body). */
  datatype Post = Post(url: string, body: string)

  /** The HTTP client: the posts it has made, in order, and whether it was closed. */
  class Session {
    const headers: map<string, string>
    var posts: seq<Post>
    var closed: bool

    constructor(headers: map<string, string>)
      ensures this.headers == headers && posts == [] && !closed
    {
      this.headers := headers;
      posts := [];
      closed := false;
    }

    method PostBody(url: string, body: string)
      modifies this
      ensures posts == old(posts) + [Post(url, body)] && closed == old(closed)
    {
      posts := posts + [Post(url, body)];
    }

    method Close()
      modifies this
      ensures closed && posts == old(posts)
    {
      closed := true;
    }
  }

  /** The posts made for a list of batches, in order. */
  function BatchPosts(urlencode: Dict -> string, batches: seq<seq<Dict>>): (r: seq<Post>)
    ensures |r| == |batches|
  {
    if batches == [] then []
    else [Post(BatchEndpoint, EncodePayload(urlencode, Batch(batches[0])))] + BatchPosts(urlencode, batches[1..])
  }

  /** The i-th post carries the i-th batch. */
  lemma {:induction false} BatchPostAt(urlencode: Dict -> string, batches: seq<seq<Dict>>, i: nat)
    requires i < |batches|
    ensures BatchPosts(urlencode, batches)[i] == Post(BatchEndpoint, EncodePayload(urlencode, Batch(batches[i])))
    decreases i
  {
    if i > 0 {
      BatchPostAt(urlencode, batches[1..], i - 1);
    }
  }

  /**
   * HTTPRequest (`batched` false) and HTTPBatchRequest (`batched` true). The
   * batching request is a subclass in the source; here one class carries both
   * behaviours and `batched` selects the overriding methods.
   */
  class HTTPRequest {
    const batched: bool
    const userAgent: string
    const session: Session
    const urlencode: Dict -> string
    var batchData: seq<Dict>

    /** The endpoint class attribute of each of the two request classes. */
    function Endpoint(): string {
      if batched then BatchEndpoint else CollectEndpoint
    }

    /** The headers property. */
    function Headers(): map<string, string> {
      map["User-Agent" := userAgent]
    }

    /** The batch buffer never reaches max_batch_size between calls; the single-hit request has none. */
    ghost predicate Valid()
      reads this
    {
      |batchData| < MaxBatchSize && (!batched ==> batchData == [])
    }

    /**
     * BaseHTTPRequest.__init__ (and HTTPBatchRequest.__init__, which then
     * resets the buffer): a given session is used as is, otherwise a new
     * client is created with the request's headers.
     */
    constructor(session: Option<Session>, userAgent: Option<string>, batched: bool, urlencode: Dict -> string)
      ensures Valid() && this.batched == batched && this.urlencode == urlencode
      ensures this.userAgent == UserAgentOr(userAgent)
      ensures session.Some? ==> this.session == session.value
      ensures session.None? ==> fresh(this.session) && this.session.headers == Headers()
                                && this.session.posts == [] && !this.session.closed
      ensures batchData == []
    {
      this.batched := batched;
      this.urlencode := urlencode;
      this.userAgent := UserAgentOr(userAgent);
      match session {
        case Some(s) =>
          this.session := s;
        case None =>
          this.session := new Session(map["User-Agent" := UserAgentOr(userAgent)]);
      }
      batchData := [];
    }

    /** HTTPRequest.send as called with a payload: one post of the encoded payload to the endpoint. */
    method PostPayload(p: Payload)
      modifies session
      ensures session.posts == old(session.posts) + [Post(Endpoint(), EncodePayload(urlencode, p))]
      ensures session.closed == old(session.closed)
    {
      session.PostBody(Endpoint(), EncodePayload(urlencode, p));
    }

    /** HTTPBatchRequest.reset */
    method Reset()
      modifies this
      ensures batchData == []
    {
      batchData := [];
    }

    /** HTTPBatchRequest._send: post the buffer as one batch if it is non-empty, then empty it. */
    method Flush()
      modifies this, session
      ensures batchData == []
      ensures session.posts == old(session.posts) +
        (if old(batchData) != [] then [Post(Endpoint(), EncodePayload(urlencode, Batch(old(batchData))))] else [])
      ensures session.closed == old(session.closed)
    {
      if batchData != [] {
        PostPayload(Batch(batchData));
      }
      Reset();
    }

    /**
     * What one send(data) does: the single-hit request posts the hit at once;
     * the batching request buffers it and posts the buffer when it reaches
     * max_batch_size.
     */
    twostate predicate Sent(new data: Dict)
      reads this, session
    {
      && session.closed == old(session.closed)
      && if !batched then
           session.posts == old(session.posts) + [Post(CollectEndpoint, EncodePayload(urlencode, Single(data)))]
           && batchData == old(batchData)
         else if |old(batchData)| + 1 >= MaxBatchSize then
           session.posts == old(session.posts) + [Post(BatchEndpoint, EncodePayload(urlencode, Batch(old(batchData) + [data])))]
           && batchData == []
         else
           session.posts == old(session.posts) && batchData == old(batchData) + [data]
    }

    /** HTTPRequest.send (a dict) and HTTPBatchRequest.send. */
    method Send(data: Dict)
      requires Valid()
      modifies this, session
      ensures Valid() && Sent(data)
    {
      if !batched {
        PostPayload(Single(data));
      } else {
        batchData := batchData + [data];
        if |batchData| >= MaxBatchSize {
          Flush();
        }
      }
    }

    /** HTTPRequest.close and HTTPBatchRequest.close (which first posts what is buffered). */
    method Close()
      requires Valid()
      modifies this, session
      ensures Valid() && batchData == [] && session.closed
      ensures session.posts == old(session.posts) +
        (if old(batchData) != [] then [Post(Endpoint(), EncodePayload(urlencode, Batch(old(batchData))))] else [])
    {
      if batched {
        Flush();
      }
      session.Close();
    }
  }

  // ---------------------------------------------------------------------------
  // Batching, stated on whole sequences of hits.
  // ---------------------------------------------------------------------------

  /** Consecutive batches of max_batch_size hits; only the last may be shorter, and none is empty. */
  function Batches(s: seq<Dict>): seq<seq<Dict>>
    decreases |s|
  {
    if s == [] then []
    else if |s| <= MaxBatchSize then [s]
    else [s[..MaxBatchSize]] + Batches(s[MaxBatchSize..])
  }

  function Flatten(bs: seq<seq<Dict>>): seq<Dict> {
    if bs == [] then [] else bs[0] + Flatten(bs[1..])
  }

  /** Batching loses, duplicates and reorders nothing. */
  lemma {:induction false} FlattenBatches(s: seq<Dict>)
    ensures Flatten(Batches(s)) == s
    decreases |s|
  {
    if |s| > MaxBatchSize {
      FlattenBatches(s[MaxBatchSize..]);
      assert s[..MaxBatchSize] + s[MaxBatchSize..] == s;
    }
  }

  /** Every batch but the last holds exactly max_batch_size hits, and the last holds between 1 and that many. */
  lemma {:induction false} BatchSizes(s: seq<Dict>)
    ensures forall i :: 0 <= i < |Batches(s)| ==>
      0 < |Batches(s)[i]| <= MaxBatchSize && (i < |Batches(s)| - 1 ==> |Batches(s)[i]| == MaxBatchSize)
    decreases |s|
  {
    if |s| > MaxBatchSize {
      var rest := Batches(s[MaxBatchSize..]);
      BatchSizes(s[MaxBatchSize..]);
      var bs := Batches(s);
      assert bs == [s[..MaxBatchSize]] + rest;
      assert rest != [];
      forall i | 0 <= i < |bs|
        ensures 0 < |bs[i]| <= MaxBatchSize && (i < |bs| - 1 ==> |bs[i]| == MaxBatchSize)
      {
        if i > 0 {
          assert bs[i] == rest[i - 1];
        }
      }
    }
  }

  /** The number of posts is the ceiling of the number of hits over max_batch_size. */
  lemma {:induction false} BatchCount(s: seq<Dict>)
    ensures |Batches(s)| == (|s| + MaxBatchSize - 1) / MaxBatchSize
    decreases |s|
  {
    if |s| > MaxBatchSize {
      BatchCount(s[MaxBatchSize..]);
    }
  }

  /** Hits that fill whole batches are batched independently of what follows them. */
  lemma {:induction false} BatchesAppend(xs: seq<Dict>, ys: seq<Dict>)
    requires |xs| % MaxBatchSize == 0
    ensures Batches(xs + ys) == Batches(xs) + Batches(ys)
    decreases |xs|
  {
    if xs == [] {
      assert xs + ys == ys;
    } else {
      assert (xs + ys)[..MaxBatchSize] == xs[..MaxBatchSize];
      assert (xs + ys)[MaxBatchSize..] == xs[MaxBatchSize..] + ys;
      if |xs| == MaxBatchSize {
        assert xs[MaxBatchSize..] + ys == ys;
        assert xs[..MaxBatchSize] == xs;
        if ys == [] {
          assert xs + ys == xs;
        } else {
          assert Batches(xs + ys) == [xs] + Batches(ys);
        }
      } else {
        BatchesAppend(xs[MaxBatchSize..], ys);
      }
    }
  }

  lemma {:induction false} BatchPostsAppend(urlencode: Dict -> string, a: seq<seq<Dict>>, b: seq<seq<Dict>>)
    ensures BatchPosts(urlencode, a + b) == BatchPosts(urlencode, a) + BatchPosts(urlencode, b)
  {
    if a == [] {
      assert a + b == b;
    } else {
      assert (a + b)[0] == a[0] && (a + b)[1..] == a[1..] + b;
      BatchPostsAppend(urlencode, a[1..], b);
    }
  }

  /** Filling the next batch of hits ds[k..j] adds exactly one post. */
  lemma BatchFilled(urlencode: Dict -> string, ds: seq<Dict>, k: nat, j: nat)
    requires k % MaxBatchSize == 0 && j == k + MaxBatchSize && j <= |ds|
    ensures BatchPosts(urlencode, Batches(ds[..j])) ==
      BatchPosts(urlencode, Batches(ds[..k])) + [Post(BatchEndpoint, EncodePayload(urlencode, Batch(ds[k..j])))]
  {
    assert ds[..j] == ds[..k] + ds[k..j];
    BatchesAppend(ds[..k], ds[k..j]);
    BatchPostsAppend(urlencode, Batches(ds[..k]), Batches(ds[k..j]));
  }

  lemma BatchFilledStep(urlencode: Dict -> string, ds: seq<Dict>, k: nat, i: nat,
                        posts0: seq<Post>, before: seq<Post>, after: seq<Post>)
    requires k % MaxBatchSize == 0 && i + 1 == k + MaxBatchSize && i < |ds|
    requires before == posts0 + BatchPosts(urlencode, Batches(ds[..k]))
    requires after == before + [Post(BatchEndpoint, EncodePayload(urlencode, Batch(ds[k..i] + [ds[i]])))]
    ensures after == posts0 + BatchPosts(urlencode, Batches(ds[..i + 1]))
  {
    assert ds[k..i] + [ds[i]] == ds[k..i + 1];
    BatchFilled(urlencode, ds, k, i + 1);
  }

  /** At most max_batch_size hits make one post, or none when there are none. */
  lemma LastBatchPosts(urlencode: Dict -> string, rest: seq<Dict>)
    requires |rest| <= MaxBatchSize
    ensures BatchPosts(urlencode, Batches(rest)) ==
      if rest != [] then [Post(BatchEndpoint, EncodePayload(urlencode, Batch(rest)))] else []
  {
    if rest != [] {
      assert Batches(rest) == [rest];
      assert [rest][1..] == [];
    }
  }

  /** The hits left over after the last full batch make one post, if there are any. */
  lemma BatchRemainder(urlencode: Dict -> string, ds: seq<Dict>, k: nat)
    requires k % MaxBatchSize == 0 && k <= |ds| < k + MaxBatchSize
    ensures BatchPosts(urlencode, Batches(ds)) == BatchPosts(urlencode, Batches(ds[..k])) +
      (if ds[k..] != [] then [Post(BatchEndpoint, EncodePayload(urlencode, Batch(ds[k..])))] else [])
  {
    var full, rest := ds[..k], ds[k..];
    assert ds == full + rest;
    BatchesAppend(full, rest);
    BatchPostsAppend(urlencode, Batches(full), Batches(rest));
    LastBatchPosts(urlencode, rest);
  }

  /** A send that fills the buffer posts the batch ds[flushed..i + 1]. */
  method SendFilling(r: HTTPRequest, ds: seq<Dict>, ghost flushed: nat, i: nat, ghost posts0: seq<Post>)
    requires r.Valid() && r.batched && flushed <= i < |ds| && flushed % MaxBatchSize == 0
    requires r.batchData == ds[flushed..i] && |r.batchData| + 1 >= MaxBatchSize
    requires r.session.posts == posts0 + BatchPosts(r.urlencode, Batches(ds[..flushed]))
    modifies r, r.session
    ensures r.Valid() && (i + 1) % MaxBatchSize == 0
    ensures r.batchData == [] && r.session.closed == old(r.session.closed)
    ensures r.session.posts == posts0 + BatchPosts(r.urlencode, Batches(ds[..i + 1]))
  {
    ghost var before := r.session.posts;
    assert i + 1 == flushed + MaxBatchSize;
    r.Send(ds[i]);
    BatchFilledStep(r.urlencode, ds, flushed, i, posts0, before, r.session.posts);
  }

  /** A send that does not fill the buffer adds ds[i] to it and posts nothing. */
  method SendBuffering(r: HTTPRequest, ds: seq<Dict>, ghost flushed: nat, i: nat)
    requires r.Valid() && r.batched && flushed <= i < |ds|
    requires r.batchData == ds[flushed..i] && |r.batchData| + 1 < MaxBatchSize
    modifies r, r.session
    ensures r.Valid() && r.batchData == ds[flushed..i + 1]
    ensures r.session.closed == old(r.session.closed) && r.session.posts == old(r.session.posts)
  {
    r.Send(ds[i]);
    assert ds[flushed..i] + [ds[i]] == ds[flushed..i + 1];
  }

  /**
   * One more send(ds[i]) to a batching request that has posted the full
   * batches of ds[..flushed] and holds ds[flushed..i].
   */
  method SendNext(r: HTTPRequest, ds: seq<Dict>, ghost flushed: nat, i: nat, ghost posts0: seq<Post>)
    returns (ghost next: nat)
    requires r.Valid() && r.batched && flushed <= i < |ds| && flushed % MaxBatchSize == 0
    requires r.batchData == ds[flushed..i]
    requires r.session.posts == posts0 + BatchPosts(r.urlencode, Batches(ds[..flushed]))
    modifies r, r.session
    ensures r.Valid() && next <= i + 1 && next % MaxBatchSize == 0
    ensures r.batchData == ds[next..i + 1] && r.session.closed == old(r.session.closed)
    ensures r.session.posts == posts0 + BatchPosts(r.urlencode, Batches(ds[..next]))
  {
    if |r.batchData| + 1 >= MaxBatchSize {
      SendFilling(r, ds, flushed, i, posts0);
      next := i + 1;
    } else {
      SendBuffering(r, ds, flushed, i);
      next := flushed;
    }
  }

  /**
   * A batching request given the hits ds one send at a time has posted every
   * full batch and holds the rest.
   */
  method SendAll(r: HTTPRequest, ds: seq<Dict>) returns (ghost flushed: nat)
    requires r.Valid() && r.batched && r.batchData == []
    modifies r, r.session
    ensures r.Valid() && flushed <= |ds| && flushed % MaxBatchSize == 0
    ensures r.batchData == ds[flushed..] && r.session.closed == old(r.session.closed)
    ensures r.session.posts == old(r.session.posts) + BatchPosts(r.urlencode, Batches(ds[..flushed]))
  {
    flushed := 0;
    for i := 0 to |ds|
      invariant r.Valid() && flushed <= i && flushed % MaxBatchSize == 0
      invariant r.batchData == ds[flushed..i] && r.session.closed == old(r.session.closed)
      invariant r.session.posts == old(r.session.posts) + BatchPosts(r.urlencode, Batches(ds[..flushed]))
    {
      flushed := SendNext(r, ds, flushed, i, old(r.session.posts));
    }
  }

  /**
   * A batching request given the hits ds one send at a time and then closed
   * posts exactly the batches Batches(ds), in order, and closes the session.
   */
  method SendAllThenClose(r: HTTPRequest, ds: seq<Dict>)
    requires r.Valid() && r.batched && r.batchData == []
    modifies r, r.session
    ensures r.session.closed && r.batchData == []
    ensures r.session.posts == old(r.session.posts) + BatchPosts(r.urlencode, Batches(ds))
  {
    ghost var flushed := SendAll(r, ds);
    BatchRemainder(r.urlencode, ds, flushed);
    r.Close();
  }

  /** Fifty hits through a batching request make three posts of 20, 20 and 10 hits. */
  lemma FiftyHitsThreePosts(urlencode: Dict -> string, s: seq<Dict>)
    requires |s| == 50
    ensures Batches(s) == [s[..20], s[20..40], s[40..]]
    ensures BatchPosts(urlencode, Batches(s)) == [
      Post(BatchEndpoint, EncodePayload(urlencode, Batch(s[..20]))),
      Post(BatchEndpoint, EncodePayload(urlencode, Batch(s[20..40]))),
      Post(BatchEndpoint, EncodePayload(urlencode, Batch(s[40..])))]
  {
    FiftyHitBatches(s);
    BatchPostAt(urlencode, Batches(s), 0);
    BatchPostAt(urlencode, Batches(s), 1);
    BatchPostAt(urlencode, Batches(s), 2);
  }

  lemma FiftyHitBatches(s: seq<Dict>)
    requires |s| == 50
    ensures Batches(s) == [s[..20], s[20..40], s[40..]]
  {
    assert s[20..][..20] == s[20..40];
    assert s[20..][20..] == s[40..];
    assert Batches(s[40..]) == [s[40..]];
    assert Batches(s[20..]) == [s[20..40]] + Batches(s[40..]);
    assert Batches(s) == [s[..20]] + Batches(s[20..]);
  }

  /**
   * Two hits and a close make one post carrying both, in order: SendAllThenClose
   * on [a, b] posts BatchPosts(urlencode, Batches([a, b])).
   */
  lemma TwoHitsOnePost(urlencode: Dict -> string, a: Dict, b: Dict)
    ensures Batches([a, b]) == [[a, b]]
    ensures BatchPosts(urlencode, Batches([a, b])) == [Post(BatchEndpoint, EncodePayload(urlencode, Batch([a, b])))]
  {
    assert Batches([a, b]) == [[a, b]];
    BatchPostAt(urlencode, Batches([a, b]), 0);
  }
}
