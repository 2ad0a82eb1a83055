/** Firebase fan-out: the blank filter, batches of 500 tokens and the running counters. */
module Fcm {
  import opened Wrappers
  import opened Text

  const MAX_TOKENS_PER_MULTICAST := 500

  datatype PushMessage = PushMessage(title: string, body: string, data: map<string, string>)

  datatype SendOutcome = SendOutcome(successCount: int, failureCount: int)

  datatype Error = NoTokens | NoTopics | EmptyMessage | Multicast | NoneSent

  /** The library's answer to one multicast. */
  datatype BatchResponse = BatchResponse(successCount: int, failureCount: int)

  predicate ValidPushMessage(msg: PushMessage) {
    msg.title != "" || msg.body != "" || |msg.data| != 0
  }

  method FilterNonEmpty(xs: seq<string>) returns (out: seq<string>)
    ensures out == NonBlank(xs)
  {
    hide TrimSpace;
    out := [];
    for i := 0 to |xs|
      invariant out == NonBlank(xs[..i])
    {
      assert xs[..i + 1][..i] == xs[..i];
      var t := TrimSpace(xs[i]);
      if t != "" {
        out := out + [t];
      }
    }
    assert xs[..|xs|] == xs;
  }

  function Flatten(batches: seq<seq<string>>): seq<string> {
    if batches == [] then [] else Flatten(batches[..|batches| - 1]) + batches[|batches| - 1]
  }

  function SumSuccess(rs: seq<Result<BatchResponse, ()>>): int {
    if rs == [] then 0
    else SumSuccess(rs[..|rs| - 1]) + (if rs[|rs| - 1].Ok? then rs[|rs| - 1].value.successCount else 0)
  }

  function SumFailure(rs: seq<Result<BatchResponse, ()>>): int {
    if rs == [] then 0
    else SumFailure(rs[..|rs| - 1]) + (if rs[|rs| - 1].Ok? then rs[|rs| - 1].value.failureCount else 0)
  }

  /** The multicasts a token list is cut into. */
  function Batches(xs: seq<string>): seq<seq<string>> {
    if xs == [] then []
    else
      var n := Min(MAX_TOKENS_PER_MULTICAST, |xs|);
      [xs[..n]] + Batches(xs[n..])
  }

  function CeilDiv(n: nat, d: nat): nat
    requires d > 0
  {
    (n + d - 1) / d
  }

  lemma {:induction false} FlattenConcat(a: seq<string>, bs: seq<seq<string>>)
    ensures Flatten([a] + bs) == a + Flatten(bs)
  {
    if bs == [] {
      assert [a] + bs == [a];
      assert Flatten([a]) == Flatten([]) + a;
    } else {
      FlattenConcat(a, bs[..|bs| - 1]);
      assert ([a] + bs)[..|bs|] == [a] + bs[..|bs| - 1];
    }
  }

  /** The batches are the token list cut in order into ceil(n/500) pieces, all full but perhaps the last. */
  lemma {:induction false} BatchesSpec(xs: seq<string>)
    ensures Flatten(Batches(xs)) == xs
    ensures |Batches(xs)| == CeilDiv(|xs|, 500)
    ensures forall i :: 0 <= i < |Batches(xs)| ==> 1 <= |Batches(xs)[i]| <= 500
    ensures forall i :: 0 <= i < |Batches(xs)| - 1 ==> |Batches(xs)[i]| == 500
  {
    if xs != [] {
      var n := Min(MAX_TOKENS_PER_MULTICAST, |xs|);
      var rest := Batches(xs[n..]);
      BatchesSpec(xs[n..]);
      FlattenConcat(xs[..n], rest);
      assert Batches(xs) == [xs[..n]] + rest;
      assert xs[n..] != [] ==> n == MAX_TOKENS_PER_MULTICAST;
      assert |Batches(xs)| == 1 + |rest|;
    }
  }

  /** Batch i holds the tokens from position 500 i on. */
  lemma {:induction false} BatchesAt(xs: seq<string>, i: nat)
    requires 500 * i < |xs|
    ensures i < |Batches(xs)| && Batches(xs)[i] == xs[500 * i..Min(500 * i + 500, |xs|)]
  {
    if i > 0 {
      BatchesAt(xs[500..], i - 1);
      Shifted(xs, 500, 500 * (i - 1), Min(500 * (i - 1) + 500, |xs| - 500));
    }
  }

  lemma Shifted(xs: seq<string>, n: nat, from: nat, to: nat)
    requires n <= |xs| && from <= to <= |xs| - n
    ensures xs[n..][from..to] == xs[n + from..n + to]
  {
  }

  lemma BatchesUnfold(xs: seq<string>, i: nat)
    requires i < |xs|
    ensures var end := Min(i + MAX_TOKENS_PER_MULTICAST, |xs|);
            Batches(xs[i..]) == [xs[i..end]] + Batches(xs[end..])
  {
    var end := Min(i + MAX_TOKENS_PER_MULTICAST, |xs|);
    assert xs[i..][..end - i] == xs[i..end];
    assert xs[i..][end - i..] == xs[end..];
  }

  /** The counters after the first n answers, all of which came back. */
  ghost predicate CountsAfter(counts: SendOutcome, replies: seq<Result<BatchResponse, ()>>, n: nat) {
    && n <= |replies|
    && counts == SendOutcome(SumSuccess(replies[..n]), SumFailure(replies[..n]))
    && forall k :: 0 <= k < n ==> replies[k].Ok?
  }

  lemma CountsNext(counts: SendOutcome, replies: seq<Result<BatchResponse, ()>>, n: nat)
    requires CountsAfter(counts, replies, n) && n < |replies| && replies[n].Ok?
    ensures var br := replies[n].value;
            CountsAfter(SendOutcome(counts.successCount + br.successCount, counts.failureCount + br.failureCount),
                        replies, n + 1)
  {
    assert replies[..n + 1][..n] == replies[..n];
  }

  /** What the caller learns from a token send that reached the library with the given batches. */
  ghost predicate TokensOutcome(outcome: SendOutcome, err: Option<Error>, sent: seq<seq<string>>,
                                batches: seq<seq<string>>, replies: seq<Result<BatchResponse, ()>>)
    requires |replies| >= |batches|
  {
    && 1 <= |sent| <= |batches|
    && sent == batches[..|sent|]
    && if err.None? then sent == batches && CountsAfter(outcome, replies, |sent|)
       else err.value == Multicast && replies[|sent| - 1].Err? && CountsAfter(outcome, replies, |sent| - 1)
  }

  /** The multicast loop. */
  method SendBatches(filtered: seq<string>, replies: seq<Result<BatchResponse, ()>>)
    returns (outcome: SendOutcome, err: Option<Error>, sent: seq<seq<string>>)
    requires filtered != [] && |replies| >= |Batches(filtered)|
    ensures TokensOutcome(outcome, err, sent, Batches(filtered), replies)
  {
    sent, outcome := [], SendOutcome(0, 0);
    ghost var batches, rest := Batches(filtered), Batches(filtered);
    var i := 0;
    assert filtered[0..] == filtered;
    while i < |filtered|
      invariant 0 <= i
      invariant rest == Batches(filtered[Min(i, |filtered|)..])
      invariant |batches| == |sent| + |rest| && batches[..|sent|] == sent && batches[|sent|..] == rest
      invariant i > 0 ==> |sent| > 0
      invariant CountsAfter(outcome, replies, |sent|)
    {
      BatchesUnfold(filtered, i);
      var end := Min(i + MAX_TOKENS_PER_MULTICAST, |filtered|);
      var batch := filtered[i..end];
      var n := |sent|;
      assert rest[0] == batch && batches[n] == batch;
      rest := rest[1..];
      var br := replies[n];
      sent := sent + [batch];
      if br.Err? {
        return outcome, Some(Multicast), sent;
      }
      CountsNext(outcome, replies, n);
      outcome := SendOutcome(outcome.successCount + br.value.successCount,
                             outcome.failureCount + br.value.failureCount);
      i := i + MAX_TOKENS_PER_MULTICAST;
    }
    err := None;
  }

  /**
   Sends tokens in multicasts. replies[k] is the library's answer to the k-th one; sent lists the batches
   handed over. The counters are the sums over the answers that came back, also when a later one failed.
   */
  method SendToTokens(tokens: seq<string>, msg: PushMessage, replies: seq<Result<BatchResponse, ()>>)
    returns (outcome: Option<SendOutcome>, err: Option<Error>, sent: seq<seq<string>>)
    requires |replies| >= |Batches(NonBlank(tokens))|
    ensures err == Some(NoTokens) <==> NonBlank(tokens) == []
    ensures err == Some(EmptyMessage) <==> NonBlank(tokens) != [] && !ValidPushMessage(msg)
    ensures outcome.None? <==> err == Some(NoTokens) || err == Some(EmptyMessage)
    ensures outcome.None? ==> sent == []
    ensures outcome.Some? ==> TokensOutcome(outcome.value, err, sent, Batches(NonBlank(tokens)), replies)
  {
    var filtered := FilterNonEmpty(tokens);
    if |filtered| == 0 {
      return None, Some(NoTokens), [];
    }
    if !ValidPushMessage(msg) {
      return None, Some(EmptyMessage), [];
    }
    var counts, multicastErr, batches := SendBatches(filtered, replies);
    return Some(counts), multicastErr, batches;
  }

  /** The library accounts for every token of the batches it answered. */
  ghost predicate Accounted(sent: seq<seq<string>>, replies: seq<Result<BatchResponse, ()>>)
    requires |sent| <= |replies|
  {
    forall k :: 0 <= k < |sent| ==>
                  replies[k].Ok? && replies[k].value.successCount + replies[k].value.failureCount == |sent[k]|
  }

  /** When each answer accounts for its batch, the two totals account for every token sent. */
  lemma {:induction false} TotalsAccount(sent: seq<seq<string>>, replies: seq<Result<BatchResponse, ()>>)
    requires |sent| <= |replies| && Accounted(sent, replies)
    ensures SumSuccess(replies[..|sent|]) + SumFailure(replies[..|sent|]) == |Flatten(sent)|
  {
    if sent != [] {
      var n := |sent| - 1;
      TotalsAccount(sent[..n], replies);
      assert replies[..n + 1][..n] == replies[..n];
      assert replies[..n + 1][n].Ok?;
    }
  }

  /** When no answer reports a negative count, the total is zero exactly when every one reports zero. */
  lemma {:induction false} NoSuccess(rs: seq<Result<BatchResponse, ()>>)
    requires forall k :: 0 <= k < |rs| && rs[k].Ok? ==> rs[k].value.successCount >= 0
    ensures SumSuccess(rs) >= 0
    ensures SumSuccess(rs) == 0 <==> forall k :: 0 <= k < |rs| && rs[k].Ok? ==> rs[k].value.successCount == 0
  {
    if rs != [] {
      var n := |rs| - 1;
      NoSuccess(rs[..n]);
      assert forall k :: 0 <= k < n ==> rs[..n][k] == rs[k];
    }
  }

  /** A total other than zero comes from a multicast that answered with one. */
  lemma {:induction false} SomeSuccess(rs: seq<Result<BatchResponse, ()>>)
    requires SumSuccess(rs) != 0
    ensures exists k :: 0 <= k < |rs| && rs[k].Ok? && rs[k].value.successCount != 0
  {
    if rs[|rs| - 1].Err? || rs[|rs| - 1].value.successCount == 0 {
      var front := rs[..|rs| - 1];
      SomeSuccess(front);
      var k :| 0 <= k < |front| && front[k].Ok? && front[k].value.successCount != 0;
      assert rs[k] == front[k];
    }
  }

  lemma NextTaken(bs: seq<bool>, i: nat)
    requires i < |bs|
    ensures |set k | 0 <= k < i + 1 && bs[k]| == |set k | 0 <= k < i && bs[k]| + (if bs[i] then 1 else 0)
  {
    var yes := set k | 0 <= k < i && bs[k];
    assert (set k | 0 <= k < i + 1 && bs[k]) == if bs[i] then yes + {i} else yes;
  }

  lemma NextRefused(bs: seq<bool>, i: nat)
    requires i < |bs|
    ensures |set k | 0 <= k < i + 1 && !bs[k]| == |set k | 0 <= k < i && !bs[k]| + (if bs[i] then 0 else 1)
  {
    var no := set k | 0 <= k < i && !bs[k];
    assert (set k | 0 <= k < i + 1 && !bs[k]) == if bs[i] then no else no + {i};
  }

  lemma SomeTaken(bs: seq<bool>, n: nat)
    requires n <= |bs|
    ensures |set k | 0 <= k < n && bs[k]| > 0 <==> exists k :: 0 <= k < n && bs[k]
  {
    var yes := set k | 0 <= k < n && bs[k];
    if yes != {} {
      var k :| k in yes;
      assert yes == {k} + (yes - {k});
    }
    assert forall k | 0 <= k < n && bs[k] :: k in yes;
  }

  /** Sends to topics one by one; replies[k] tells whether the k-th send succeeded. */
  method SendToTopics(topics: seq<string>, msg: PushMessage, replies: seq<bool>)
    returns (outcome: Option<SendOutcome>, err: Option<Error>)
    requires |replies| >= |NonBlank(topics)|
    ensures err == Some(NoTopics) <==> NonBlank(topics) == []
    ensures err == Some(EmptyMessage) <==> NonBlank(topics) != [] && !ValidPushMessage(msg)
    ensures outcome.None? <==> err == Some(NoTopics) || err == Some(EmptyMessage)
    ensures outcome.Some? ==>
              var n := |NonBlank(topics)|;
              && outcome.value.successCount == |set k | 0 <= k < n && replies[k]|
              && outcome.value.failureCount == |set k | 0 <= k < n && !replies[k]|
              && (err.None? <==> exists k :: 0 <= k < n && replies[k])
  {
    hide TrimSpace, NonBlank;
    var filtered := FilterNonEmpty(topics);
    if |filtered| == 0 {
      return None, Some(NoTopics);
    }
    if !ValidPushMessage(msg) {
      return None, Some(EmptyMessage);
    }
    var counts := SendOutcome(0, 0);
    for i := 0 to |filtered|
      invariant counts.successCount == |set k | 0 <= k < i && replies[k]|
      invariant counts.failureCount == |set k | 0 <= k < i && !replies[k]|
    {
      NextTaken(replies, i);
      NextRefused(replies, i);
      if !replies[i] {
        counts := counts.(failureCount := counts.failureCount + 1);
        continue;
      }
      counts := counts.(successCount := counts.successCount + 1);
    }
    SomeTaken(replies, |filtered|);
    if counts.successCount == 0 {
      return Some(counts), Some(NoneSent);
    }
    return Some(counts), None;
  }
}
