/** Reading an artifact body that reopens itself after an interruption. */
module Recovery {
  import opened Records

  type Byte = b: int | 0 <= b < 256

  /** The errors the reader tells apart. `WrappedEOF` is an error that wraps
      io.EOF without being it; `Failed` is a failed continuation. */
  datatype Error =
    | EOF
    | WrappedEOF
    | UnexpectedEOF
    | Transient        // a timeout, a deadline or a reset connection
    | ClosedPipe
    | Canceled
    | Fatal
    | Exhausted        // the continuation budget is used up
    | Failed(cause: Error)

  predicate Recoverable(e: Error) {
    if e.Failed? then Recoverable(e.cause) else e in {UnexpectedEOF, Transient, ClosedPipe, Canceled}
  }

  /** `errors.Is(e, io.EOF)`: io.EOF itself or anything that wraps it. */
  predicate IsEOF(e: Error) {
    if e.Failed? then IsEOF(e.cause) else e == EOF || e == WrappedEOF
  }

  /** What a failed continuation failed of, in the end. */
  function Cause(e: Error): Error {
    if e.Failed? then Cause(e.cause) else e
  }

  lemma {:induction false} CauseDecides(e: Error)
    ensures Recoverable(e) <==> Cause(e) in {UnexpectedEOF, Transient, ClosedPipe, Canceled}
    ensures IsEOF(e) <==> Cause(e) in {EOF, WrappedEOF}
  {
    if e.Failed? {
      CauseDecides(e.cause);
    }
  }

  /** Adding context to an error: the result is no longer io.EOF itself. */
  function Wrap(e: Error): Error {
    if e == EOF then WrappedEOF else e
  }

  /** `readResult`: whatever wraps io.EOF becomes io.EOF itself. */
  function ReadResult(err: Option<Error>): Option<Error> {
    if err.Some? && IsEOF(err.value) then Some(EOF) else err
  }

  /** The error of one body read; a plain io.EOF before the end is unexpected. */
  function BodyError(answer: Option<Error>, early: bool): Option<Error> {
    if answer == Some(EOF) && early then Some(UnexpectedEOF) else ReadResult(answer)
  }

  lemma BodyErrorKind(answer: Option<Error>, early: bool)
    ensures var err := BodyError(answer, early);
      && (err.Some? <==> answer.Some?)
      && (err.Some? && early ==> (Recoverable(err.value) <==> Interrupts(answer)))
      && (err.Some? && IsEOF(err.value) ==> err.value == EOF && (!early || answer.value != EOF))
      && (err.Some? && IsEOF(answer.value) && answer.value != EOF ==> err.value == EOF)
      && (err.Some? && err.value == EOF ==> IsEOF(answer.value))
  {
    if answer.Some? {
      CauseDecides(answer.value);
    }
  }

  /** What one call of `open` yields. */
  datatype Opened = Body(data: seq<Byte>) | Nothing | Refused(error: Error)

  /** The answer to the n-th call, which asks for an offset. */
  type Opener = (nat, nat) -> Opened

  /** `data` continues `content` from `offset`; bytes past its end may be anything. */
  ghost predicate Continues(content: seq<Byte>, offset: nat, data: seq<Byte>) {
    forall i :: 0 <= i < |data| && offset + i < |content| ==> data[i] == content[offset + i]
  }

  ghost predicate HonestOpener(content: seq<Byte>, open: Opener) {
    forall n: nat, offset: nat :: open(n, offset).Body? ==> Continues(content, offset, open(n, offset).data)
  }

  const MAX_RETRIES := 3

  /** Every call of the opener gives a body. */
  ghost predicate AlwaysOpens(open: Opener) {
    forall n: nat, offset: nat :: open(n, offset).Body?
  }

  /** What a body may answer in the middle of the representation for the transfer to
      go on: the end of its data, a timeout, a reset, a closed or cancelled read. */
  predicate Interrupts(answer: Option<Error>) {
    answer.Some? && (answer.value == EOF || Cause(answer.value) in {UnexpectedEOF, Transient, ClosedPipe, Canceled})
  }

  /** What asking for a continuation comes to after `n` calls: the first answer that
      is not a recoverable refusal with budget left. */
  function Answer(open: Opener, n: nat, offset: nat): Opened
    decreases MAX_RETRIES - n
  {
    var r := open(n, offset);
    if r.Refused? && Recoverable(r.error) && n + 1 < MAX_RETRIES then Answer(open, n + 1, offset) else r
  }

  /** That answer is the one to the call `k`: every call before it was refused with an
      error that may pass, and it itself was not, or was the third call of all. */
  lemma {:induction false} AnswerMeans(open: Opener, n: nat, offset: nat) returns (k: nat)
    requires n < 3
    ensures n <= k < 3 && Answer(open, n, offset) == open(k, offset)
    ensures forall j: nat :: n <= j < k ==>
      open(j, offset).Refused? && Cause(open(j, offset).error) in {UnexpectedEOF, Transient, ClosedPipe, Canceled}
    ensures k == 2 || !open(k, offset).Refused? ||
      Cause(open(k, offset).error) !in {UnexpectedEOF, Transient, ClosedPipe, Canceled}
    decreases 3 - n
  {
    var r := open(n, offset);
    k := n;
    if r.Refused? {
      CauseDecides(r.error);
      if Recoverable(r.error) && n + 1 < 3 {
        k := AnswerMeans(open, n + 1, offset);
      }
    }
  }

  /** The continuation is refused with an error that wraps io.EOF. */
  predicate RefusedWithEOF(open: Opener, n: nat, offset: nat) {
    Answer(open, n, offset).Refused? && IsEOF(Answer(open, n, offset).error)
  }

  class RecoveryBody {
    const size: nat
    const open: Opener
    ghost const content: seq<Byte>
    ghost const honest: bool
    var data: seq<Byte>        // the current body
    var position: nat          // how much of it was read
    var read: nat
    var retries: nat
    var pending: Option<Error>
    var terminal: Option<Error>
    var closed: bool
    var canceled: bool
    var recovered: bool
    ghost var opens: nat
    ghost var asked: nat       // calls made before the last continuation was asked for
    ghost var delivered: seq<Byte>
    ghost var sawWrappedEOF: bool
    ghost var interruptions: nat   // reads that ended early with an interruption
    ghost var broken: bool         // a read ended early otherwise, or gave an invalid count
    ghost var asks: nat            // how often a body was read
    ghost var count: int           // the last count that a body gave
    ghost var reported: Option<Error>   // the error of the last read, as it was judged

    ghost predicate Valid()
      reads this
    {
      && size == |content| && read <= size && position <= |data|
      && |delivered| == read && (honest ==> delivered == content[..read])
      && (honest ==> HonestOpener(content, open))
      && (honest && terminal.None? && pending.None? ==> Continues(content, read, data[position..]))
      && opens == retries <= MAX_RETRIES
      && (terminal.None? && pending.Some? ==> retries < MAX_RETRIES && read < size)
      && (terminal == Some(EOF) ==> read == size || sawWrappedEOF)
      && (terminal.None? ==> !sawWrappedEOF) && (closed ==> canceled) && asked <= opens
      && (terminal.Some? && !canceled ==> EarlyEndExplained(terminal.value))
      && (opens == 0 ==> !recovered)
      && (terminal.None? ==> !broken)
      && (terminal.None? && AlwaysOpens(open) && !canceled ==> interruptions == Continued())
      && (terminal.Some? && read < size && !canceled ==> GivesUp())
    }

    /** Why a reader with a live context stops before the end: a body failed for good,
        the continuations are used up, or the one asked for was refused or empty. If
        every call gives a body, more interruptions than continuations came. */
    ghost predicate GivesUp()
      reads this
    {
      && (broken || opens == 3 || (pending.Some? && !Answer(open, asked, read).Body?))
      && (AlwaysOpens(open) ==> broken || interruptions > 3)
    }

    /** Interruptions that were answered or still wait for their continuation. */
    ghost function Continued(): nat
      reads this
    {
      opens + if pending.Some? then 1 else 0
    }

    /** While the context is live, a body ends early and looks finished exactly when
        its own last error wrapped io.EOF, or when the continuation it asked for was
        refused with such an error. */
    ghost predicate EarlyEndExplained(err: Error)
      reads this
    {
      IsEOF(err) && read < size <==>
        read < size && (sawWrappedEOF || (pending.Some? && RefusedWithEOF(open, asked, read)))
    }

    /** The reader has stopped early in that way. */
    ghost predicate EndsEarly()
      reads this
    {
      terminal.Some? && read < size && (sawWrappedEOF || (pending.Some? && RefusedWithEOF(open, asked, read)))
    }

    constructor (representation: seq<Byte>, ghost honestBodies: bool, opener: Opener, body: seq<Byte>)
      requires honestBodies ==> HonestOpener(representation, opener) && Continues(representation, 0, body)
      ensures Valid() && content == representation && honest == honestBodies && open == opener &&
        size == |representation|
      ensures read == 0 && opens == 0 && delivered == [] && terminal == None && pending == None
      ensures !recovered && !sawWrappedEOF && !canceled && !closed
    {
      content, honest, open, size := representation, honestBodies, opener, |representation|;
      data, position, read, retries, pending, terminal := body, 0, 0, 0, None, None;
      closed, canceled, recovered := false, false, false;
      opens, asked, delivered, sawWrappedEOF, interruptions, broken := 0, 0, [], false, 0, false;
      asks, count, reported := 0, 0, None;
      new;
      assert data[0..] == data;
    }

    /** Another goroutine may close the body or end the caller's context. */
    method Interfere()
      modifies `closed, `canceled
      ensures (old(canceled) ==> canceled) && (old(closed) ==> closed)
      ensures (old(closed) ==> old(canceled)) ==> (closed ==> canceled)
    {
      var closing: bool := *;
      var canceling: bool := *;
      closed, canceled := closed || closing, canceled || closing || canceling;
    }

    /** Idempotent; ends the context so that a blocked read returns. */
    method Close()
      modifies `closed, `canceled
      ensures closed && canceled == (old(canceled) || !old(closed))
    {
      if closed { return; }
      closed, canceled := true, true;
    }

    /** `body.Read`: any count, valid or not, and any error beside it. */
    method BodyRead() returns (n: int, err: Option<Error>)
      requires position <= |data|
      modifies `asks, `count
      ensures n <= |data| - position && asks == old(asks) + 1 && count == n
    {
      n := *;
      err := *;
      if n > |data| - position { n := -1; }
      asks, count := asks + 1, n;
    }

    /** The bytes of the last count that belong to the representation, which the
        reader had read up to `before`. */
    ghost function Given(capacity: nat, before: nat): nat
      requires before <= size
      reads this
    {
      if count < 0 || count > capacity then 0 else if count > size - before then size - before else count
    }

    /** Takes the bytes a read returned, no more than the declared length. */
    method Take(count: nat) returns (chunk: seq<Byte>)
      requires Valid() && terminal.None? && pending.None? && position + count <= |data|
      modifies `read, `position, `delivered
      ensures |chunk| <= count && read == old(read) + |chunk| <= size && delivered == old(delivered) + chunk
      ensures position <= |data| && (honest ==> delivered == content[..read])
      ensures |chunk| < count ==> read == size
      ensures honest && |chunk| == count ==> Continues(content, read, data[position..])
    {
      chunk := data[position..position + count];
      assert forall i :: 0 <= i < count ==> chunk[i] == data[position..][i];
      var remaining := size - read;
      if count > remaining {
        chunk := chunk[..remaining];
        assert honest ==> chunk == content[read..read + remaining];
        read, delivered := read + remaining, delivered + chunk;
        return;
      }
      assert honest ==> chunk == content[read..read + count];
      assert data[position..][count..] == data[position + count..];
      read, position, delivered := read + count, position + count, delivered + chunk;
    }

    /** Reads once, clips to the declared length, and reports an early plain EOF
        as an unexpected one. */
    method ReadBody(capacity: nat) returns (n: nat, chunk: seq<Byte>, err: Option<Error>)
      requires Valid() && terminal.None? && pending.None?
      modifies `read, `position, `delivered, `sawWrappedEOF, `interruptions, `broken, `asks, `count, `reported
      ensures reported == err
      ensures read == old(read) + n <= size && |chunk| == n <= capacity && delivered == old(delivered) + chunk
      ensures asks == old(asks) + 1 && n == Given(capacity, old(read))
      ensures err.None? || Recoverable(err.value) ==> n == count
      ensures err.Some? && read < size ==> broken || interruptions == old(interruptions) + 1
      ensures broken ==> err.Some? && !Recoverable(err.value) && interruptions == old(interruptions)
      ensures !broken && err.Some? && read < size ==> Recoverable(err.value)
      ensures err.None? || read == size ==> interruptions == old(interruptions)
      ensures position <= |data| && (honest ==> delivered == content[..read])
      ensures honest && (err.None? || Recoverable(err.value)) ==> Continues(content, read, data[position..])
      ensures err == Some(EOF) ==> read == size || sawWrappedEOF
      ensures err.Some? && IsEOF(err.value) ==> err == Some(EOF)
      ensures old(sawWrappedEOF) ==> sawWrappedEOF
      ensures sawWrappedEOF && !old(sawWrappedEOF) ==> err == Some(EOF)
    {
      var got, answer := BodyRead();
      if got < 0 || got > capacity {
        broken, reported := true, Some(Fatal);
        return 0, [], Some(Fatal);
      }
      chunk := Take(got);
      n := |chunk|;
      if n < got {
        err := Some(Fatal);
      } else {
        err := BodyError(answer, read < size);
        BodyErrorKind(answer, read < size);
        sawWrappedEOF := sawWrappedEOF || (answer.Some? && IsEOF(answer.value) && answer.value != EOF);
      }
      reported := err;
      if answer.Some? && read < size {
        if Interrupts(answer) {
          interruptions := interruptions + 1;
        } else {
          broken := true;
        }
      }
    }

    predicate ShouldRecover(err: Option<Error>)
      reads this
    {
      read < size && retries < MAX_RETRIES && err.Some? && Recoverable(err.value)
    }

    /** One call of the opener, at the exact offset delivered so far. Only a
        recoverable refusal with budget left may be tried again. */
    method OpenNext() returns (r: Opened, retry: bool)
      requires retries == opens < MAX_RETRIES
      modifies `retries, `opens, `recovered
      ensures retries == opens == old(opens) + 1
      ensures r == open(old(opens), read)
      ensures recovered == (old(recovered) || !r.Refused?)
      ensures retry <==> r.Refused? && Recoverable(r.error) && opens < MAX_RETRIES
    {
      r := open(retries, read);
      retries, opens := retries + 1, opens + 1;
      if !r.Refused? {
        recovered := true;
        return r, false;
      }
      retry := Recoverable(r.error) && retries < MAX_RETRIES;
    }

    /** `retry.DoValue` with at most `max` retries after the first attempt. */
    method Retry(max: nat) returns (r: Opened)
      requires retries == opens && retries + max == MAX_RETRIES - 1
      modifies `retries, `opens, `recovered, `closed, `canceled
      ensures retries == opens <= MAX_RETRIES
      ensures old(canceled) ==> opens == old(opens) && r == Refused(Canceled) && canceled
      ensures (r == Refused(Canceled) && canceled) || exists n: nat :: r == open(n, read)
      ensures !canceled ==> r == Answer(open, old(opens), read) && opens > old(opens)
      ensures (old(closed) ==> old(canceled)) ==> (closed ==> canceled)
      ensures opens >= old(opens) && (r.Refused? || opens > old(opens))
      ensures !canceled && AlwaysOpens(open) ==> r.Body? && opens == old(opens) + 1
      ensures opens == 0 ==> recovered == old(recovered)
    {
      var attempt := 0;
      while true
        invariant attempt <= max && retries == opens == old(opens) + attempt
        invariant attempt == 0 ==> recovered == old(recovered)
        invariant old(canceled) ==> attempt == 0 && canceled
        invariant Answer(open, opens, read) == Answer(open, old(opens), read)
        invariant AlwaysOpens(open) ==> attempt == 0
        invariant (old(closed) ==> old(canceled)) ==> (closed ==> canceled)
        decreases max - attempt
      {
        if canceled { return Refused(Canceled); }
        var again;
        r, again := OpenNext();
        if !again || attempt >= max { return; }
        Interfere();
        if canceled { return Refused(Canceled); }
        attempt := attempt + 1;
      }
    }

    /** The caller's own cancellation is not a failed continuation. */
    function ContinuationError(e: Error): Error
      reads this
    {
      if canceled then e else Failed(e)
    }

    /** Replaces an interrupted body. The guard of the exhausted branch is false at
        every call. */
    method Reopen() returns (failure: Option<Error>)
      requires Valid() && pending.Some? && terminal.None?
      modifies `data, `position, `pending, `retries, `opens, `asked, `recovered, `closed, `canceled
      ensures position <= |data| && opens == retries <= MAX_RETRIES && (opens == 0 ==> !recovered)
      ensures (closed ==> canceled) && asked == old(opens) <= opens && (!canceled ==> asked < opens)
      ensures old(retries) < MAX_RETRIES && failure != Some(EOF)
      ensures failure.None? ==>
        pending.None? && (honest ==> Continues(content, read, data[position..])) && opens > old(opens)
      ensures failure.Some? ==> pending == old(pending)
      ensures failure.Some? && !canceled ==> Tells(failure.value)
      ensures !canceled ==> (failure.Some? <==> !Answer(open, asked, read).Body?)
      ensures !canceled && AlwaysOpens(open) ==> failure.None? && opens == old(opens) + 1
      ensures !canceled ==> (failure.Some? && IsEOF(failure.value) <==> RefusedWithEOF(open, asked, read))
      ensures old(canceled) ==> opens == old(opens) && canceled
    {
      asked := opens;
      if retries >= MAX_RETRIES { return Some(Exhausted); }
      Interfere();
      if closed { return Some(ClosedPipe); }
      var closing: Option<Error> := *;
      Interfere();
      if closing.Some? && canceled { return Some(Wrap(closing.value)); }
      var next := Retry(2 - retries);
      if next.Refused? { return Some(Wrap(ContinuationError(next.error))); }
      if next.Nothing? { return Some(Fatal); }
      Interfere();
      if closed { return Some(ClosedPipe); }
      data, position, pending := next.data, 0, None;
      assert data[0..] == data;
      return None;
    }

    /** What a reader with a live context says when it stops: that the continuation it
        asked for was refused or empty, or what the last body said, as a failed
        continuation if there was one before and it is no clean end. */
    ghost predicate Tells(err: Error)
      reads this
    {
      if pending.Some? then
        var answer := Answer(open, asked, read);
        (answer.Nothing? && err == Fatal) || (answer.Refused? && err == Failed(answer.error))
      else
        reported.Some? && err ==
          if reported.value == EOF || opens == 0 then reported.value else Failed(reported.value)
    }

    /** The body to read from, reopened if the last read was interrupted. */
    method Ready() returns (failure: Option<Error>)
      requires Valid()
      modifies `data, `position, `pending, `retries, `opens, `asked, `recovered, `closed, `canceled
      ensures position <= |data| && opens == retries <= MAX_RETRIES && (opens == 0 ==> !recovered) &&
        (closed ==> canceled)
      ensures old(opens) <= opens && asked <= opens
      ensures old(terminal).Some? ==>
        failure == old(terminal) && pending == old(pending) && asked == old(asked) && canceled == old(canceled)
      ensures old(terminal).None? ==> failure != Some(EOF)
      ensures old(terminal).None? && failure.Some? && !canceled ==>
        && old(pending).Some? && pending.Some? && asked == old(opens) < opens
        && (IsEOF(failure.value) <==> RefusedWithEOF(open, asked, read)) && Tells(failure.value)
        && !Answer(open, asked, read).Body? && !AlwaysOpens(open)
      ensures old(terminal).None? && old(pending).Some? && !canceled && RefusedWithEOF(open, old(opens), read) ==>
        failure.Some?
      ensures old(terminal).Some? || old(canceled) || old(pending).None? ==>
        opens == old(opens) && recovered == old(recovered)
      ensures old(canceled) ==> canceled
      ensures failure.None? ==> Valid() && pending.None? && terminal.None?
      ensures failure.None? && old(pending).Some? ==> opens > old(opens)
    {
      if terminal.Some? { return terminal; }
      Interfere();
      if canceled { return Some(Canceled); }
      if pending.Some? {
        failure := Reopen();
        if failure.Some? { return; }
      }
      if closed { return Some(ClosedPipe); }
      return None;
    }

    /** An interrupted body whose next continuation is refused with an error that
        wraps io.EOF. */
    ghost predicate Refusing()
      reads this
    {
      terminal.None? && pending.Some? && RefusedWithEOF(open, opens, read)
    }

    /** One turn of `Read`'s loop: make the body ready, then read from it once.
        `again` when the read was interrupted before it yielded a byte. */
    method Attempt(capacity: nat) returns (again: bool, n: nat, chunk: seq<Byte>, err: Option<Error>)
      requires Valid()
      modifies this
      ensures Valid() && |chunk| == n <= capacity && delivered == old(delivered) + chunk
      ensures again ==>
        n == 0 && old(terminal).None? && terminal.None? && pending.Some? && sawWrappedEOF == old(sawWrappedEOF)
      ensures err.Some? && old(terminal).None? && pending.Some? && !canceled ==> asked == old(opens) < opens
      ensures old(opens) <= opens
      ensures again ==> opens > old(opens) || (old(pending).None? && opens == old(opens))
      ensures !again ==> (err.Some? ==> terminal == err) && (err.None? ==> terminal.None?)
      ensures err.Some? && old(terminal).None? && read < size && !canceled ==> GivesUp()
      ensures err.Some? && old(terminal).None? && !canceled ==> Tells(err.value)
      ensures old(asks) <= asks && n == if asks > old(asks) then Given(capacity, old(read)) else 0
      ensures err.None? ==> asks > old(asks) && n == count
      ensures broken && old(terminal).None? ==> err.Some?
      ensures old(Refusing()) && !canceled ==> !again && err.Some? && n == 0 && IsEOF(err.value)
      ensures sawWrappedEOF && !old(sawWrappedEOF) ==> err == Some(EOF)
      ensures old(terminal).Some? ==> n == 0 && err == old(terminal) && terminal == old(terminal)
      ensures old(canceled) ==> canceled && opens == old(opens)
      ensures old(read) == size ==> !again && recovered == old(recovered) && n == 0
    {
      assert forall s: seq<Byte> :: s + [] == s;
      var failure := Ready();
      if failure.Some? {
        terminal := failure;
        return false, 0, [], failure;
      }
      again, n, chunk, err := ReadOnce(capacity);
    }

    /** One read of the current body, and what becomes of its error. */
    method ReadOnce(capacity: nat) returns (again: bool, n: nat, chunk: seq<Byte>, err: Option<Error>)
      requires Valid() && pending.None? && terminal.None?
      modifies `read, `position, `delivered, `sawWrappedEOF, `interruptions, `broken, `asks, `count, `reported
      modifies `pending, `terminal
      ensures err.Some? && !canceled ==> Tells(err.value)
      ensures err.Some? && canceled ==> err == reported
      ensures asks == old(asks) + 1 && n == Given(capacity, old(read)) && (err.None? ==> n == count)
      ensures Valid() && |chunk| == n <= capacity && delivered == old(delivered) + chunk
      ensures again ==> n == 0 && terminal.None? && pending.Some? && !sawWrappedEOF && read == old(read) < size
      ensures !again ==> (err.Some? ==> terminal == err) && (err.None? ==> terminal.None?)
      ensures err.Some? ==> pending.None?
      ensures err.Some? && read < size ==> broken || opens == MAX_RETRIES
      ensures err.Some? && read < size && AlwaysOpens(open) && !canceled ==> broken || interruptions > opens
      ensures broken ==> err.Some?
      ensures sawWrappedEOF ==> err == Some(EOF)
    {
      n, chunk, err := ReadBody(capacity);
      if ShouldRecover(err) {
        pending := err;
        if n > 0 { return false, n, chunk, None; }
        assert chunk == [];
        return true, 0, [], None;
      }
      terminal := FinalReadError(err);
      return false, n, chunk, terminal;
    }

    /** `Read`. Whatever happened before, it hands over the next bytes of the
        representation, calls `open` at most three times over the body's whole
        life, and reports a clean end early only after a body's own wrapped EOF.
        An interruption is no error: the reader gives up only as `GivesUp` says. */
    method Read(capacity: nat) returns (n: nat, chunk: seq<Byte>, err: Option<Error>)
      requires Valid()
      modifies this
      ensures Valid() && |chunk| == n <= capacity && delivered == old(delivered) + chunk
      ensures opens <= 3
      ensures if capacity > 0 then terminal == err else err.None? && n == 0
      ensures capacity > 0 && err.Some? && !canceled ==> EarlyEndExplained(err.value)
      ensures err.Some? && old(terminal).None? && read < size && !canceled ==> GivesUp()
      ensures err.Some? && old(terminal).None? && !canceled ==> Tells(err.value)
      ensures err.None? && capacity > 0 ==> asks > old(asks) && n == count
      ensures broken && old(terminal).None? && capacity > 0 ==> err.Some?
      ensures err.Some? && old(terminal).None? && pending.Some? && !canceled ==> old(opens) <= asked < opens
      ensures capacity > 0 && old(Refusing()) && !canceled ==> err.Some? && IsEOF(err.value) && n == 0 && read < size
      ensures err == Some(EOF) ==> read == size || sawWrappedEOF
      ensures sawWrappedEOF && !old(sawWrappedEOF) ==> err == Some(EOF)
      ensures old(terminal).Some? && capacity > 0 ==> n == 0 && err == old(terminal) && terminal == old(terminal)
      ensures old(canceled) ==> opens == old(opens)
      ensures old(read) == size ==> recovered == old(recovered) && n == 0
    {
      assert forall s: seq<Byte> :: s + [] == s;
      if capacity == 0 { return 0, [], None; }
      while true
        invariant Valid() && delivered == old(delivered)
        invariant old(terminal) == terminal && old(sawWrappedEOF) == sawWrappedEOF
        invariant old(Refusing()) && !canceled ==> Refusing()
        invariant old(asks) <= asks && old(opens) <= opens && (old(canceled) ==> canceled && opens == old(opens))
        invariant old(read) == size ==> recovered == old(recovered)
        decreases MAX_RETRIES - opens, pending.None?
      {
        var again;
        again, n, chunk, err := Attempt(capacity);
        if !again { return; }
      }
    }

    /** Reads until an error or a body's idle answer. When the context stays live, every
        continuation is answered and no body fails for good, at most three
        interruptions lose nothing: the whole representation is delivered. */
    method Drain(capacity: nat) returns (all: seq<Byte>, err: Option<Error>)
      requires Valid() && terminal.None? && capacity > 0
      modifies this
      ensures Valid() && delivered == old(delivered) + all && (err.Some? ==> terminal == err)
      ensures err.Some? && read < size && !canceled ==> GivesUp()
      ensures err.None? ==> count == 0
      ensures err.Some? && honest && AlwaysOpens(open) && !canceled && !broken && interruptions <= 3 ==>
        delivered == content
    {
      all := [];
      while true
        invariant Valid() && terminal.None? && delivered == old(delivered) + all
        decreases size - read
      {
        var n, chunk;
        n, chunk, err := Read(capacity);
        all := all + chunk;
        if err.Some? || n == 0 {
          assert content[..size] == content;
          return;
        }
      }
    }

    function FinalReadError(err: Option<Error>): Option<Error>
      reads this
    {
      if err.None? || err.value == EOF || retries == 0 then err else Some(ContinuationError(err.value))
    }
  }
}
