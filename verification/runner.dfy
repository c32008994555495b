/** The loop of `main`: one copy request per listed object, in listing order,
    unless the run is a dry run. The listing is an input sequence and the copy
    calls an output sequence. */
module Runner {
  import opened Metadata
  import opened Request

  /** The copy calls a run issues for one object. */
  function Step(bucket: string, flags: Flags, guess: Guesser, o: ObjectMeta): seq<CopyRequest> {
    if flags.dryRun then [] else [BuildRequest(bucket, flags, guess, o)]
  }

  /** The copy calls issued over a whole listing. */
  function Run(bucket: string, flags: Flags, guess: Guesser, listing: seq<ObjectMeta>): (issued: seq<CopyRequest>)
    ensures flags.dryRun ==> issued == []
    ensures !flags.dryRun ==> |issued| == |listing|
    ensures !flags.dryRun ==> forall i :: 0 <= i < |listing| ==>
      issued[i] == BuildRequest(bucket, flags, guess, listing[i])
    decreases |listing|
  {
    if |listing| == 0 then []
    else Step(bucket, flags, guess, listing[0]) + Run(bucket, flags, guess, listing[1..])
  }

  /** The loop as `main` writes it, appending each object's copy call. */
  method RunLoop(bucket: string, flags: Flags, guess: Guesser, listing: seq<ObjectMeta>)
    returns (issued: seq<CopyRequest>)
    ensures issued == Run(bucket, flags, guess, listing)
    ensures flags.dryRun ==> issued == []
    ensures !flags.dryRun ==> |issued| == |listing|
    ensures !flags.dryRun ==> forall i :: 0 <= i < |listing| ==>
      issued[i].copySource == CopySource(bucket, listing[i].key)
  {
    issued := [];
    var n := 0;
    while n < |listing|
      invariant 0 <= n <= |listing|
      invariant issued == Run(bucket, flags, guess, listing[..n])
    {
      var o := listing[n];
      var r := BuildRequest(bucket, flags, guess, o);
      if !flags.dryRun {
        issued := issued + [r];
      }
      RunAppend(bucket, flags, guess, listing[..n], [o]);
      assert listing[..n + 1] == listing[..n] + [o];
      n := n + 1;
    }
    assert listing[..n] == listing;
  }

  /** Running over two consecutive pages of a listing issues the same calls as
      running over the whole listing. */
  lemma {:induction false} RunAppend(bucket: string, flags: Flags, guess: Guesser, a: seq<ObjectMeta>, b: seq<ObjectMeta>)
    ensures Run(bucket, flags, guess, a + b) == Run(bucket, flags, guess, a) + Run(bucket, flags, guess, b)
    decreases |a|
  {
    if |a| == 0 {
      assert a + b == b;
    } else {
      assert (a + b)[1..] == a[1..] + b;
      RunAppend(bucket, flags, guess, a[1..], b);
    }
  }

  /** Outside a dry run every listed object is copied, in listing order, even
      one whose metadata the request would leave as it is: there is no
      change detection. */
  lemma EveryObjectCopied(bucket: string, flags: Flags, guess: Guesser, listing: seq<ObjectMeta>, i: int)
    requires !flags.dryRun && 0 <= i < |listing|
    ensures var issued := Run(bucket, flags, guess, listing);
      && |issued| == |listing|
      && issued[i].copySource == CopySource(bucket, listing[i].key)
      && issued[i].metadataDirective == Replace
  {
  }
}
