/** The output side of the protobuf code generators: `P` writes its
    arguments as one line. */
module Generator {

  /** The generator's output buffer, one entry per `P` call. */
  class Printer {
    var lines: seq<string>

    constructor ()
      ensures lines == []
    {
      lines := [];
    }

    method P(s: string)
      modifies this
      ensures lines == old(lines) + [s]
    {
      lines := lines + [s];
    }
  }

  /** Appending two pieces one after the other appends their
      concatenation. */
  lemma Assoc<T>(a: seq<T>, b: seq<T>, c: seq<T>)
    ensures a + b + c == a + (b + c)
  {
  }
}
