/** Outgoing audio of a call over the USB sound card (channel_write_uac of
    src/channel.c): short writes are continued, and retries are bounded. */
module UacAudios {
  import opened Basics
  import opened Mixing
  import opened CallSpec

  const EPIPE := 32
  const ESTRPIPE := 86
  const ATTEMPTS := 8

  /** The card's answer to the k-th write of a frame: what it would take at most,
      or an error. */
  function Answer(answers: seq<int>, k: nat): int {
    if k < |answers| then answers[k] else -EAGAIN
  }

  predicate Underrun(answer: int) {
    answer == -EPIPE || answer == -ESTRPIPE
  }

  function Underruns(answers: seq<int>, k: nat): nat {
    if k == 0 then 0 else Underruns(answers, k - 1) + if Underrun(Answer(answers, k - 1)) then 1 else 0
  }

  /** What the first k writes can take together. */
  function Progress(answers: seq<int>, k: nat): nat {
    if k == 0 then 0
    else Progress(answers, k - 1) + if Answer(answers, k - 1) > 0 then Answer(answers, k - 1) else 0
  }

  /** The first k answers leave the frame alive: progress, interrupts, and one
      underrun from which the stream can be prepared again. */
  predicate Alive(answers: seq<int>, k: nat, recover: int) {
    && (forall j: nat :: j < k ==>
          Answer(answers, j) > 0 || Answer(answers, j) == -EINTR || Underrun(Answer(answers, j)))
    && Underruns(answers, k) <= 1
    && (Underruns(answers, k) == 1 ==> recover == 0)
  }

  /** The card can take the whole frame in the writes it is given. */
  predicate Takes(answers: seq<int>, recover: int, samples: nat) {
    exists k: nat :: k <= ATTEMPTS && Alive(answers, k, recover) && Progress(answers, k) >= samples
  }

  /** `n` samples are heard: all that the writes took until the frame was complete,
      was given up, or had used up its attempts. */
  predicate Hears(answers: seq<int>, recover: int, samples: nat, n: nat) {
    exists k: nat :: k <= ATTEMPTS && Alive(answers, k, recover) && n == Min(samples, Progress(answers, k))
      && (n < samples ==> k == ATTEMPTS || !Alive(answers, k + 1, recover))
  }

  lemma {:induction false} Monotone(answers: seq<int>, j: nat, k: nat)
    requires j <= k
    ensures Progress(answers, j) <= Progress(answers, k) && Underruns(answers, j) <= Underruns(answers, k)
  {
    if j < k { Monotone(answers, j, k - 1); }
  }

  lemma AliveShorter(answers: seq<int>, j: nat, k: nat, recover: int)
    requires j <= k && Alive(answers, k, recover)
    ensures Alive(answers, j, recover)
  {
    Monotone(answers, j, k);
  }

  /** A frame that did not survive its k-th write with enough taken is not taken. */
  lemma TooLate(answers: seq<int>, recover: int, samples: nat, k: nat)
    requires !Alive(answers, k + 1, recover) && Progress(answers, k) < samples
    ensures !Takes(answers, recover, samples)
  {
    forall j: nat | j <= ATTEMPTS && Alive(answers, j, recover) ensures Progress(answers, j) < samples {
      if j > k { AliveShorter(answers, k + 1, j, recover); } else { Monotone(answers, j, k); }
    }
  }

  lemma OutOfAttempts(answers: seq<int>, recover: int, samples: nat)
    requires Progress(answers, ATTEMPTS) < samples
    ensures !Takes(answers, recover, samples)
  {
    forall j: nat | j <= ATTEMPTS ensures Progress(answers, j) < samples { Monotone(answers, j, ATTEMPTS); }
  }

  /** Errors of the card that only cost the rest of a frame. */
  predicate Transient(res: int) {
    res >= 0 || res == -EAGAIN || res == -EINTR || Underrun(res)
  }

  class UacAudio {
    var played: seq<Sample>
    var writeFrames: nat
    var writtenBytes: nat
    var truncatedFrames: nat

    /** channel_write_uac: the card hears the frame in order, from its start,
        without a gap or a repetition, and all of it if and only if it can take
        it; the counters tell what was heard. */
    method Write(data: seq<Sample>, prepare: int, answers: seq<int>, recover: int) returns (res: int)
      modifies this
      ensures old(played) <= played
      ensures var heard := played[|old(played)|..];
        && heard <= data
        && (if prepare >= 0 && data != [] then Hears(answers, recover, |data|, |heard|) else heard == [])
        && (heard == data <==> data == [] || (prepare >= 0 && Takes(answers, recover, |data|)))
        && writtenBytes == old(writtenBytes) + 2 * |heard|
        && writeFrames == old(writeFrames) + (if |heard| > 0 then 1 else 0)
        && truncatedFrames == old(truncatedFrames) + if |heard| < |data| then 1 else 0
      ensures res <= 0 && (res < 0 ==> !Transient(res))
      ensures prepare < 0 && !Transient(prepare) ==> res == prepare
    {
      var written := 0;
      var r := prepare;
      if prepare >= 0 {
        if data == [] { return 0; }
        written, r := Attempts(data, answers, recover);
      }
      if written > 0 {
        writeFrames := writeFrames + 1;
        writtenBytes := writtenBytes + 2 * written;
      }
      if written < |data| { truncatedFrames := truncatedFrames + 1; }
      res := if Transient(r) then 0 else r;
    }

    /** The loop of channel_write_uac. */
    method Attempts(data: seq<Sample>, answers: seq<int>, recover: int) returns (written: nat, res: int)
      requires data != []
      modifies `played
      ensures written <= |data| && played == old(played) + data[..written]
      ensures Hears(answers, recover, |data|, written)
      ensures written == |data| <==> Takes(answers, recover, |data|)
    {
      written, res := 0, 0;
      var attempt, recovered := 0, false;
      while written < |data| && attempt < ATTEMPTS
        invariant 0 <= attempt <= ATTEMPTS && written <= |data|
        invariant played == old(played) + data[..written]
        invariant written == Min(|data|, Progress(answers, attempt))
        invariant Alive(answers, attempt, recover) && (recovered <==> Underruns(answers, attempt) == 1)
        decreases ATTEMPTS - attempt
      {
        res := Answer(answers, attempt);
        if res > |data| - written { res := |data| - written; }
        if res > 0 {
          played := played + data[written..written + res];
          written := written + res;
        } else if res == -EINTR {
        } else {
          var again := false;
          if !recovered && Underrun(res) {
            recovered := true;
            res := recover;
            again := res == 0;
          }
          if !again {
            TooLate(answers, recover, |data|, attempt);
            return;
          }
        }
        attempt := attempt + 1;
      }
      if written < |data| { OutOfAttempts(answers, recover, |data|); }
    }
  }
}
