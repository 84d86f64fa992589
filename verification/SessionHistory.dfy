/** The session history as a value: a window of consecutively numbered messages, its byte size and
    limits. This is the flat in-memory history, and the specification of the file backed one. */
module SessionHistory {
  import opened Messages

  datatype History = History(first: nat, msgs: seq<Message>, size: nat, limit: nat, base: nat)

  function LastIndex(h: History): int {
    h.first + |h.msgs| - 1
  }

  predicate Coherent(h: History) {
    h.size == TotalLength(h.msgs)
  }

  predicate OutOfSpace(h: History) {
    h.limit > 0 && h.size >= h.limit
  }

  predicate Fits(h: History, msgs: seq<Message>) {
    h.limit == 0 || TotalLength(msgs) <= h.limit
  }

  /** A full history refuses the message and stays as it is. */
  function AddMessage(h: History, m: Message): History {
    if OutOfSpace(h) then h else h.(msgs := h.msgs + [m], size := h.size + Length(m))
  }

  /** Replaces the content; the numbering goes on where it was. */
  function Reset(h: History, msgs: seq<Message>): History {
    if !Fits(h, msgs) then h
    else h.(first := LastIndex(h) + 1, msgs := msgs, size := TotalLength(msgs), base := TotalLength(msgs))
  }

  function GetBatch(h: History, after: int): (seq<Message>, int) {
    if after >= LastIndex(h) then ([], LastIndex(h))
    else
      var offset := if after < h.first - 1 then 0 else after - h.first + 1;
      (h.msgs[offset..], LastIndex(h))
  }

  /** Index numbers are never reused: each operation leaves the last index where it was or moves it
      forward by exactly the number of messages it stored, and the size stays the stored length. */
  lemma IndicesGoOn(h: History, m: Message, msgs: seq<Message>)
    requires Coherent(h)
    ensures Coherent(AddMessage(h, m)) && Coherent(Reset(h, msgs))
    ensures LastIndex(AddMessage(h, m)) == LastIndex(h) + (if OutOfSpace(h) then 0 else 1)
    ensures LastIndex(Reset(h, msgs)) == LastIndex(h) + (if Fits(h, msgs) then |msgs| else 0)
    ensures Fits(h, msgs) ==> Reset(h, msgs).first == LastIndex(h) + 1
  {
    TotalLengthSnoc(h.msgs, m);
  }

  // ---- Autoreset threshold ----

  /** Nine tenths of the limit, rounded down. */
  function NineTenths(limit: nat): nat {
    limit * 9 / 10
  }

  /** The configured threshold counts from the last reset image; zero disables autoreset. */
  function EffectiveThreshold(h: History, threshold: nat): nat {
    if threshold == 0 then 0
    else
      var t := threshold + h.base;
      if h.limit > 0 && NineTenths(h.limit) < t then NineTenths(h.limit) else t
  }

  /** The threshold is never set higher than nine tenths of the limit. */
  function Clamp(limit: nat, threshold: nat): nat {
    if limit > 0 && NineTenths(limit) < threshold then NineTenths(limit) else threshold
  }

  predicate Clamped(limit: nat, threshold: nat) {
    limit > 0 ==> threshold <= NineTenths(limit)
  }

  /** When an autoreset is wanted: it is enabled, and the log has grown by more than the threshold since the
      last reset image, or over nine tenths of the limit. */
  predicate WantsReset(h: History, threshold: nat) {
    threshold > 0 && (h.size > threshold + h.base || (h.limit > 0 && h.size * 10 > h.limit * 9))
  }

  /** The effective threshold is crossed exactly then, whatever the threshold was set to. */
  lemma ThresholdIff(h: History, threshold: nat)
    requires Clamped(h.limit, threshold)
    ensures EffectiveThreshold(h, threshold) > 0 && h.size > EffectiveThreshold(h, threshold) <==> WantsReset(h, threshold)
  {
  }

  /** A history that an append has filled wants a reset. */
  lemma FullWantsReset(h: History, threshold: nat)
    requires threshold > 0 && OutOfSpace(h)
    ensures WantsReset(h, threshold)
  {
  }
}
