/** The error values of api/runtime/status.go: a code and a message wrapped
    in a `WarpError`, whose `Error()` is the message and `Code()` the code. */
module RuntimeStatus {

  newtype Int32 = x: int | -0x8000_0000 <= x < 0x8000_0000

  /** `status`. */
  datatype Status = Status(code: Int32, message: string) {

    /** `status.Err`: wraps the status in an error. */
    function Err(): (e: WarpError)
      ensures e.Code() == code && e.Error() == message
    {
      WarpError(this)
    }
  }

  /** `WarpError`, holding the status it was made from. */
  datatype WarpError = WarpError(e: Status) {

    /** `WarpError.Error`. */
    function Error(): string {
      e.message
    }

    /** `WarpError.Code`. */
    function Code(): Int32 {
      e.code
    }
  }

  /** `new`. */
  function New(c: Int32, msg: string): (s: Status)
    ensures s.code == c && s.message == msg
  {
    Status(c, msg)
  }

  /** `Error`: an error whose `Code()` is `c` and whose `Error()` is `msg`;
      the pair can be read back, so different pairs give different errors. */
  function Error(c: Int32, msg: string): (e: WarpError)
    ensures e.Code() == c && e.Error() == msg
  {
    New(c, msg).Err()
  }

  /** `Errorf`: the code is kept and the message is `fmt.Sprintf(format,
      a...)`; the formatter is a parameter of the model. */
  function Errorf<A>(c: Int32, format: string, a: seq<A>, sprintf: (string, seq<A>) -> string): (e: WarpError)
    ensures e.Code() == c && e.Error() == sprintf(format, a)
  {
    Error(c, sprintf(format, a))
  }

  /** `Code`: an error with code `c` and an empty message. */
  function Code(c: Int32): (e: WarpError)
    ensures e.Code() == c && e.Error() == ""
  {
    Error(c, "")
  }

  /** Every error is the one `Error` builds from its own code and message:
      the accessors lose nothing. */
  lemma ErrorFromAccessors(w: WarpError)
    ensures Error(w.Code(), w.Error()) == w
  {
  }
}
