/** The recursion of one worker on the counters of its run, with every outside answer left open. */
module ProcessChunk {
  import opened Wrappers
  import opened RunAccounting

  // What the model call and the hook behind it may do
  datatype Outcome = Stored | Raised(stored: bool, after: Reaction)

  class ImportCounters {
    var total: nat
    var processed: nat
    var imported: nat
    var skipped: nat
    var failed: nat
    var split: nat
    var retried: nat
    // Successes that were counted although their hook raised, and chunks resumed without being counted
    ghost var late: nat
    ghost var resumed: nat

    constructor (leaves: nat)
      ensures total == leaves && processed == imported == skipped == failed == split == late == resumed == 0
    {
      total, processed, imported, skipped, failed, split, retried := leaves, 0, 0, 0, 0, 0, 0;
      late, resumed := 0, 0;
    }

    // Every processed chunk has one outcome.
    ghost predicate Valid()
      reads this
    {
      processed == imported + skipped + failed
    }

    // What one call accounts for: its own chunk and one more per split, against late errors
    twostate predicate Accounts(chunks: nat)
      reads this
    {
      && old(split) <= split && old(failed) <= failed && total - old(total) == split - old(split)
      && (processed + resumed) - old(processed + resumed) == chunks + (split - old(split)) + (late - old(late))
    }

    method Skip()
      modifies this`processed, this`skipped
      ensures processed == old(processed) + 1 && skipped == old(skipped) + 1
    {
      processed, skipped := processed + 1, skipped + 1;
    }

    method Fail()
      modifies this`processed, this`failed
      ensures processed == old(processed) + 1 && failed == old(failed) + 1
    {
      processed, failed := processed + 1, failed + 1;
    }

    /** One call accounts for one chunk and for everything it was split into; it reports success unless one of those failed. */
    method Process(t: Task, known: bool, claims: bool, limits: Limits) returns (ok: bool)
      requires Valid() && limits.maxAttempts > 0
      modifies this
      ensures Valid() && Accounts(1)
      ensures ok <==> failed == old(failed)
      ensures known ==> ok && skipped == old(skipped) + 1 && imported == old(imported) && split == old(split)
      decreases t.size, 2
    {
      if known {
        Skip();
        return true;
      }
      if claims {
        var tries := 0;
        var claimed := false;
        while !claimed
          invariant Valid() && Accounts(0) && failed == old(failed) && tries < limits.maxAttempts
          decreases !claimed, limits.maxAttempts - tries
        {
          // A split that cannot be repeated ends the whole run with an error; every other answer may come.
          assert !Claimed.SplitClaim?;
          var answer: Claim :| answer.SplitClaim? ==> 0 < answer.size < t.size;
          match answer
          case Claimed => claimed := true;
          case Duplicate => Skip(); return true;
          case ResumeSucceeded => resumed := resumed + 1; return true;
          case SplitClaim(size) =>
            ok := ProcessChildren(t, size, limits);
            return;
          case BusyClaim =>
            if tries + 1 >= limits.maxAttempts {
              Fail();
              return false;
            }
            retried, tries := retried + 1, tries + 1;
        }
      }
      ok := Attempts(t, limits);
    }

    /** The model call with its retries. */
    method Attempts(t: Task, limits: Limits) returns (ok: bool)
      requires Valid() && limits.maxAttempts > 0
      modifies this
      ensures Valid() && Accounts(1)
      ensures ok <==> failed == old(failed)
      decreases t.size, 1
    {
      var attempt := 0;
      while attempt < limits.maxAttempts
        invariant Valid() && Accounts(0) && failed == old(failed)
      {
        var outcome: Outcome := *;
        match outcome {
          case Stored =>
            processed, imported := processed + 1, imported + 1;
            return true;
          case Raised(stored, after) =>
            if stored {
              processed, imported, late := processed + 1, imported + 1, late + 1;
            }
            if after.SplitAt? && t.depth < limits.maxDepth && 0 < after.size < t.size {
              ok := ProcessChildren(t, after.size, limits);
              return;
            }
            if !after.Again? || attempt + 1 >= limits.maxAttempts {
              break;
            }
        }
        retried, attempt := retried + 1, attempt + 1;
      }
      Fail();
      ok := false;
    }

    /** Both children, the second one even after the first failed. */
    method ProcessChildren(t: Task, size: nat, limits: Limits) returns (ok: bool)
      requires Valid() && limits.maxAttempts > 0 && 0 < size < t.size
      modifies this
      ensures Valid() && Accounts(1)
      ensures ok <==> failed == old(failed)
      decreases t.size, 0
    {
      total, split := total + 1, split + 1;
      var known: bool, claims: bool := *, *;
      var first := Process(Task(size, t.depth + 1), known, claims, limits);
      var second := Process(Task(t.size - size, t.depth + 1), known, claims, limits);
      ok := first && second;
    }
  }
}
