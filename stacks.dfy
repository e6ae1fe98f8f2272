/** LIFO stacks as sequences: the top is the last element. The layers keep
    their forward-time buffers (std::stack in the library) in this form. */
module Stacks {

  function Top<T>(s: seq<T>): (t: T)
    requires s != []
    ensures t in s
  {
    s[|s| - 1]
  }

  function Pop<T>(s: seq<T>): (r: seq<T>)
    requires s != []
    ensures |r| == |s| - 1
    ensures r + [Top(s)] == s
  {
    s[..|s| - 1]
  }

  /** Pushing and then popping gives back the stack and the pushed value. */
  lemma PushPop<T>(s: seq<T>, x: T)
    ensures Top(s + [x]) == x && Pop(s + [x]) == s
  {
  }

  /** Extending a prefix by one element. */
  lemma PrefixExtend<T>(s: seq<T>, j: nat)
    requires j < |s|
    ensures s[..j + 1] == s[..j] + [s[j]]
  {
  }
}
