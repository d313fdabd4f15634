/**
 * `swap.c`: `swap` exchanges the two `int` objects its pointers designate.
 * An object whose address is taken is an `IntCell`, and a pointer to it is a
 * reference to the cell, so the two arguments may be the same object.
 */
module Swap {

  /** C's `int` on the platforms the program targets: 32 bits, two's complement. */
  newtype int32 = x: int | -0x8000_0000 <= x < 0x8000_0000

  /** An `int` variable whose address is passed around, such as `i` in `swap(&i, &j)`. */
  class IntCell {
    var value: int32

    constructor (initial: int32)
      ensures value == initial
    {
      value := initial;
    }
  }

  /** `swap(left, right)`: each object ends up holding the value the other held. */
  method Swap(left: IntCell, right: IntCell)
    modifies left, right
    ensures left.value == old(right.value)
    ensures right.value == old(left.value)
  {
    var temp := left.value;
    left.value := right.value;
    right.value := temp;
  }

  /** Swapping the same pair twice leaves nothing changed: `swap` is its own inverse. */
  method SwapTwice(left: IntCell, right: IntCell)
    modifies left, right
    ensures left.value == old(left.value)
    ensures right.value == old(right.value)
  {
    Swap(left, right);
    Swap(left, right);
  }

  /** `swap(p, p)` changes nothing. */
  method SwapWithItself(cell: IntCell)
    modifies cell
    ensures cell.value == old(cell.value)
  {
    Swap(cell, cell);
  }

  /** `main`: `i = 2`, `j = 5`, `swap(&i, &j)`, and it prints `i = 5, j = 2`. */
  method SwapMain() returns (i: int32, j: int32)
    ensures i == 5 && j == 2
  {
    var first := new IntCell(2);
    var second := new IntCell(5);
    Swap(first, second);
    i, j := first.value, second.value;
  }
}
