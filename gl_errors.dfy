/**
 * `gl_check_error` (src/utils.rs): drains the graphics driver's error queue,
 * logging one line per pending error with its name and the call site.
 *
 * `glGetError` is foreign code; here the values its successive calls
 * return are given as a sequence `replies`, read front to back.  The
 * driver promises that the queue runs dry, so `replies` contains
 * `NO_ERROR`.  The `error!` sink becomes the sequence of lines returned.
 */
module GlErrors {

  newtype U32 = x: int | 0 <= x < 0x1_0000_0000

  /**
   * Error codes of `glGetError`, as listed in section 2.3.1 (Table 2.3) of
   * the OpenGL 4.6 Core Profile specification.  That table also lists
   * `CONTEXT_LOST`, which the source does not name.
   */
  const NO_ERROR: U32 := 0
  const INVALID_ENUM: U32 := 0x0500
  const INVALID_VALUE: U32 := 0x0501
  const INVALID_OPERATION: U32 := 0x0502
  const STACK_OVERFLOW: U32 := 0x0503
  const STACK_UNDERFLOW: U32 := 0x0504
  const OUT_OF_MEMORY: U32 := 0x0505
  const INVALID_FRAMEBUFFER_OPERATION: U32 := 0x0506
  const CONTEXT_LOST: U32 := 0x0507

  const UnknownErrorName: string := "unknown GL error code"

  /** The seven error codes the source's `match` names, with the names of their `GL_` constants. */
  const ErrorTable: map<U32, string> := map[
    INVALID_ENUM := "INVALID_ENUM",
    INVALID_VALUE := "INVALID_VALUE",
    INVALID_OPERATION := "INVALID_OPERATION",
    STACK_OVERFLOW := "STACK_OVERFLOW",
    STACK_UNDERFLOW := "STACK_UNDERFLOW",
    OUT_OF_MEMORY := "OUT_OF_MEMORY",
    INVALID_FRAMEBUFFER_OPERATION := "INVALID_FRAMEBUFFER_OPERATION"
  ]

  /**
   * The name logged for an error code: its constant's name for the seven
   * codes the source names, the default text for any other value.
   */
  function ErrorName(code: U32): (name: string)
    ensures code in ErrorTable ==> name == ErrorTable[code]
    ensures code !in ErrorTable ==> name == UnknownErrorName
  {
    match code
    case INVALID_ENUM => "INVALID_ENUM"
    case INVALID_VALUE => "INVALID_VALUE"
    case INVALID_OPERATION => "INVALID_OPERATION"
    case STACK_OVERFLOW => "STACK_OVERFLOW"
    case STACK_UNDERFLOW => "STACK_UNDERFLOW"
    case OUT_OF_MEMORY => "OUT_OF_MEMORY"
    case INVALID_FRAMEBUFFER_OPERATION => "INVALID_FRAMEBUFFER_OPERATION"
    case _ => UnknownErrorName
  }

  /**
   * The name identifies the error: two codes with the same name are the
   * same code, unless both are unknown; and a known code never gets the
   * default text.
   */
  lemma ErrorNameIdentifiesCode(a: U32, b: U32)
    ensures ErrorName(a) == UnknownErrorName <==> a !in ErrorTable
    ensures ErrorName(a) == ErrorName(b) && a in ErrorTable ==> a == b
  {
  }

  /** `CONTEXT_LOST` is not among the names, so it is logged with the default text. */
  lemma ContextLostIsUnknown()
    ensures CONTEXT_LOST !in ErrorTable
    ensures ErrorName(CONTEXT_LOST) == UnknownErrorName
  {
  }

  /** One line of the `error!` sink: the error's name, then the call site. */
  datatype ErrorLine = ErrorLine(name: string, file: string, line: U32)

  /** The index of the first `NO_ERROR` reply: the number of pending errors. */
  function PendingCount(replies: seq<U32>): (i: nat)
    requires NO_ERROR in replies
    ensures i < |replies| && replies[i] == NO_ERROR
    ensures forall j :: 0 <= j < i ==> replies[j] != NO_ERROR
  {
    if replies[0] == NO_ERROR then 0 else 1 + PendingCount(replies[1..])
  }

  /** The lines logged for `codes`, in order, each with the call site. */
  function ErrorLines(codes: seq<U32>, file: string, line: U32): seq<ErrorLine> {
    seq(|codes|, k requires 0 <= k < |codes| => ErrorLine(ErrorName(codes[k]), file, line))
  }

  /**
   * Logging is in queue order: the lines for two runs of codes, one after
   * the other, are the lines of the first run followed by those of the second.
   */
  lemma ErrorLinesAppend(a: seq<U32>, b: seq<U32>, file: string, line: U32)
    ensures ErrorLines(a + b, file, line) == ErrorLines(a, file, line) + ErrorLines(b, file, line)
  {
  }

  /**
   * `gl_check_error(file, line)`: reads replies until `NO_ERROR`, logging
   * one line for each error before it, in queue order, and returns that
   * final `NO_ERROR`; `remaining` is what later calls of `glGetError` return.
   */
  method CheckError(replies: seq<U32>, file: string, line: U32)
    returns (code: U32, logged: seq<ErrorLine>, remaining: seq<U32>)
    requires NO_ERROR in replies
    ensures code == NO_ERROR
    ensures |logged| == PendingCount(replies)
    ensures logged == ErrorLines(replies[..PendingCount(replies)], file, line)
    ensures remaining == replies[PendingCount(replies) + 1..]
  {
    var next := 0;
    code := replies[next];
    next := next + 1;
    logged := [];
    while code != NO_ERROR
      invariant 1 <= next <= |replies|
      invariant code == replies[next - 1]
      invariant forall j :: 0 <= j < next - 1 ==> replies[j] != NO_ERROR
      invariant NO_ERROR in replies[next - 1..]
      invariant logged == ErrorLines(replies[..next - 1], file, line)
      decreases |replies| - next
    {
      logged := logged + [ErrorLine(ErrorName(code), file, line)];
      assert replies[..next] == replies[..next - 1] + [code];
      ErrorLinesAppend(replies[..next - 1], [code], file, line);
      assert NO_ERROR in replies[next..];
      code := replies[next];
      next := next + 1;
    }
    assert next - 1 == PendingCount(replies);
    remaining := replies[next..];
  }

  /** Two pending errors: two lines in queue order, then `NO_ERROR`. */
  lemma TwoPendingErrors(file: string, line: U32)
    ensures var replies := [INVALID_VALUE, STACK_OVERFLOW, NO_ERROR];
      && PendingCount(replies) == 2
      && ErrorLines(replies[..2], file, line)
         == [ErrorLine("INVALID_VALUE", file, line), ErrorLine("STACK_OVERFLOW", file, line)]
  {
    var replies := [INVALID_VALUE, STACK_OVERFLOW, NO_ERROR];
    assert replies[1..][1..][0] == NO_ERROR;
  }
}
