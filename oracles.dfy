/**
 * The outside world the executors consult: a shell, a container runtime, a
 * clock deciding whether a step met its deadline. Each is an oracle whose
 * answers are fixed in advance as a function of the question's position in
 * the conversation and of the question itself, and which records every
 * question it is asked.
 */
module Oracles {
  class Oracle<Q, A> {
    /** The questions asked so far, in order. */
    var asked: seq<Q>
    /** The answer to the i-th question (counting from 0). */
    const answer: (nat, Q) -> A

    constructor (answer: (nat, Q) -> A)
      ensures asked == [] && this.answer == answer
    {
      asked := [];
      this.answer := answer;
    }

    /** Asks one question: it is recorded, and the answer is the one fixed for its position. */
    method Ask(q: Q) returns (a: A)
      modifies this
      ensures asked == old(asked) + [q]
      ensures a == answer(|old(asked)|, q)
    {
      a := answer(|asked|, q);
      asked := asked + [q];
    }
  }
}
