/** The move provider: the list of empty squares sent to the language model,
    the validation of the model's reply and the deterministic fallback used
    whenever the reply cannot be used. The SDK call itself is an input: its
    outcome is given as a `Reply`. */
module GeminiService {
  import opened Types

  /** The indices of the empty squares of `b` at or after `k`, in increasing order. */
  function EmptyFrom(b: Board, k: nat): seq<Cell>
    requires k <= 9
    decreases 9 - k
  {
    if k == 9 then [] else (if b[k] == None then [k as Cell] else []) + EmptyFrom(b, k + 1)
  }

  lemma {:induction false} EmptyFromSpec(b: Board, k: nat)
    requires k <= 9
    ensures forall i: int :: i in EmptyFrom(b, k) <==> k <= i < 9 && b[i] == None
    ensures forall p, q :: 0 <= p < q < |EmptyFrom(b, k)| ==> EmptyFrom(b, k)[p] < EmptyFrom(b, k)[q]
    decreases 9 - k
  {
    if k < 9 {
      EmptyFromSpec(b, k + 1);
      var rest := EmptyFrom(b, k + 1);
      assert forall q :: 0 <= q < |rest| ==> k < rest[q] by {
        forall q | 0 <= q < |rest| ensures k < rest[q] {
          assert rest[q] in rest;
        }
      }
    }
  }

  /** The available spots: the index of every empty square, each once, in
      increasing order. */
  function AvailableSpots(b: Board): (spots: seq<Cell>)
    ensures forall i: int :: i in spots <==> 0 <= i < 9 && b[i] == None
    ensures forall p, q :: 0 <= p < q < |spots| ==> spots[p] < spots[q]
  {
    EmptyFromSpec(b, 0);
    EmptyFrom(b, 0)
  }

  /** The fallback policy: the first available spot, or -1 on a full board. */
  function Fallback(b: Board): (r: int)
    ensures r == -1 <==> None !in b
    ensures r != -1 ==> 0 <= r < 9 && b[r] == None
    ensures forall j :: 0 <= j < r ==> b[j] != None
  {
    var spots := AvailableSpots(b);
    FirstSpotIsFirstEmpty(b);
    if |spots| > 0 then spots[0] else -1
  }

  lemma FirstSpotIsFirstEmpty(b: Board)
    ensures |AvailableSpots(b)| == 0 <==> None !in b
    ensures |AvailableSpots(b)| > 0 ==> forall j :: 0 <= j < AvailableSpots(b)[0] ==> b[j] != None
  {
    var spots := AvailableSpots(b);
    if |spots| > 0 {
      assert spots[0] in spots;
    }
  }

  /** The `move` field of the parsed reply: a (finite) JavaScript number, or
      any other JSON value (a string, an object, `null`, or no field at all). */
  datatype MoveField = Number(x: real) | NotNumber

  /** The outcome of asking the model: the call, the read of the response
      text or `JSON.parse` threw, or the reply was parsed and its `move`
      field read. */
  datatype Reply = CallFailed | Parsed(move: MoveField)

  predicate IsInteger(x: real) {
    x == x.Floor as real
  }

  /** The reply names a square of `b` that is empty. A number outside 0..8
      fails the range test; a fraction in range indexes no square of the
      array, and `undefined` is not `null`. */
  predicate Accepts(b: Board, reply: Reply) {
    && reply.Parsed?
    && reply.move.Number?
    && 0.0 <= reply.move.x <= 8.0
    && IsInteger(reply.move.x)
    && b[reply.move.x.Floor] == None
  }

  /** The index `getAiMove` resolves to for the reply `reply` on board `b`:
      the model's own choice when it names an empty square, and otherwise
      the first empty square, or -1 when there is none. */
  function ChooseMove(b: Board, reply: Reply): (r: int)
    ensures r == -1 || (0 <= r < 9 && b[r] == None)
    ensures r == -1 <==> None !in b
    ensures Accepts(b, reply) ==> r as real == reply.move.x
    ensures !Accepts(b, reply) ==> forall j :: 0 <= j < r ==> b[j] != None
  {
    if Accepts(b, reply) then reply.move.x.Floor else Fallback(b)
  }

  /** A reply naming an empty square by its index is used as it is. */
  lemma ValidReplyHonoured(b: Board, n: int)
    requires 0 <= n < 9 && b[n] == None
    ensures ChooseMove(b, Parsed(Number(n as real))) == n
  {
  }

  /** Every unusable reply ends in the fallback: a failed call or parse, a
      field that is not a number, a number out of range, a fraction, and a
      square that is already taken. */
  lemma RejectedReplyFallsBack(b: Board, reply: Reply)
    requires
      || reply == CallFailed
      || reply == Parsed(NotNumber)
      || (reply.Parsed? && reply.move.Number? &&
          (reply.move.x < 0.0 || reply.move.x > 8.0 || !IsInteger(reply.move.x)))
      || (reply.Parsed? && reply.move.Number? && IsInteger(reply.move.x) &&
          0.0 <= reply.move.x <= 8.0 && b[reply.move.x.Floor] != None)
    ensures ChooseMove(b, reply) == Fallback(b)
  {
  }

  /** The move provider fails on a board whose only empty square is the
      last one: the fallback picks that square. */
  lemma FailureOnLastSquare(b: Board)
    requires forall i :: 0 <= i < 8 ==> b[i] != None
    requires b[8] == None
    ensures ChooseMove(b, CallFailed) == 8
  {
  }

  /** The model names square 3, which X holds: the move is never 3. */
  lemma OccupiedReplyNeverPlayed(b: Board)
    requires b[3] == Some(X)
    ensures ChooseMove(b, Parsed(Number(3.0))) != 3
  {
  }
}
