/** The terminal the vending machine talks to, reduced to what the machine reads from it.
    Rendering is not modelled; the keyboard is a finite script of user answers. */
module Console {

  datatype Option<T> = None | Some(value: T)

  /** The keys the machine distinguishes (System.ConsoleKey values); every other key is Other.
      ConsoleKey.Y is reported for both 'y' and 'Y'. */
  datatype Key = D0 | D1 | D2 | Escape | Y | Other

  /** One answer of the user, as each kind of prompt would read it: the key a ReadKey prompt
      gets, what int.TryParse makes of the line (None when it fails), and what double.TryParse
      makes of it. The parsing itself belongs to the runtime library and is not modelled. */
  datatype Token = Token(key: Key, number: Option<int>, amount: Option<real>)

  /** A read either finds the input exhausted or gets a value. */
  datatype Read<T> = EndOfInput | Got(value: T)

  /** The console input: the answers not yet consumed. Each read takes exactly one. */
  class Terminal {
    var pending: seq<Token>

    constructor (script: seq<Token>)
      ensures pending == script
    {
      pending := script;
    }

    /** Console.ReadKey().Key */
    method ReadKey() returns (r: Read<Key>)
      modifies this
      ensures old(pending) == [] ==> r == EndOfInput && pending == []
      ensures old(pending) != [] ==> r == Got(old(pending)[0].key) && pending == old(pending)[1..]
    {
      if pending == [] {
        r := EndOfInput;
      } else {
        r := Got(pending[0].key);
        pending := pending[1..];
      }
    }

    /** int.TryParse(Console.ReadLine(), out n) */
    method ReadNumber() returns (r: Read<Option<int>>)
      modifies this
      ensures old(pending) == [] ==> r == EndOfInput && pending == []
      ensures old(pending) != [] ==> r == Got(old(pending)[0].number) && pending == old(pending)[1..]
    {
      if pending == [] {
        r := EndOfInput;
      } else {
        r := Got(pending[0].number);
        pending := pending[1..];
      }
    }

    /** double.TryParse(Console.ReadLine(), out x) */
    method ReadAmount() returns (r: Read<Option<real>>)
      modifies this
      ensures old(pending) == [] ==> r == EndOfInput && pending == []
      ensures old(pending) != [] ==> r == Got(old(pending)[0].amount) && pending == old(pending)[1..]
    {
      if pending == [] {
        r := EndOfInput;
      } else {
        r := Got(pending[0].amount);
        pending := pending[1..];
      }
    }
  }
}
