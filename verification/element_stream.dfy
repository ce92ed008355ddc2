/** The generic forward cursor shared by the tokenizer and the parser (src/element_stream.rs). */
module ElementStreams {
  import opened Wrappers

  /**
   * A cursor over an immutable sequence of elements. `index` is the
   * position of the next element; `index == |elements|` means exhausted.
   */
  class ElementStream<T> {
    const elements: seq<T>
    var index: nat

    /** The cursor never runs past the end of its elements. */
    ghost predicate Valid()
      reads this
    {
      index <= |elements|
    }

    /** A cursor at the start of `elements`. */
    constructor (elements: seq<T>)
      ensures Valid()
      ensures this.elements == elements && index == 0
    {
      this.elements := elements;
      index := 0;
    }

    /** The next element, without advancing. */
    method Peek() returns (r: Option<T>)
      requires Valid()
      ensures index < |elements| ==> r == Some(elements[index])
      ensures index == |elements| ==> r == None
    {
      if index + 1 > |elements| {
        return None;
      }
      return Some(elements[index]);
    }

    /** The element `back` positions behind the cursor, if there is one. */
    method Previous(back: nat) returns (r: Option<T>)
      requires Valid()
      ensures back > index ==> r == None
      ensures back <= index && index - back < |elements| ==> r == Some(elements[index - back])
      ensures r.Some? <==> back <= index && index - back < |elements|
    {
      if back > index {
        return None;
      }
      var previousIndex := index - back;
      if previousIndex < |elements| {
        return Some(elements[previousIndex]);
      }
      return None;
    }

    /** The next element, advancing past it; `None` and no move when exhausted. */
    method Consume() returns (r: Option<T>)
      requires Valid()
      modifies this
      ensures Valid()
      ensures old(index) < |elements| ==> r == Some(elements[old(index)]) && index == old(index) + 1
      ensures old(index) == |elements| ==> r == None && index == old(index)
    {
      var element := Peek();
      if index + 1 > |elements| {
        return None;
      }
      index := index + 1;
      return element;
    }

    /** Advances past the next element if there is one; a no-op when exhausted. */
    method Skip()
      requires Valid()
      modifies this
      ensures Valid()
      ensures index == if old(index) < |elements| then old(index) + 1 else old(index)
    {
      if index + 1 > |elements| {
        return;
      }
      index := index + 1;
    }
  }
}
