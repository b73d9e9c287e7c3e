/** The typewriter reveal of the front end
    (frontend/src/components/TypewriterEffect.tsx): the component's state as
    the fields of a class, each timer callback and each effect as a method.
    After every state change React re-runs the typing effect, which either
    schedules the next tick (while `Typing()`) or calls onComplete (once
    `Finished()`). Timer delays and their random jitter are left out. */
module Typewriter {

  class TypewriterEffect {
    /** The `text` prop. */
    var text: string
    var displayedText: string
    var currentIndex: nat
    var showCursor: bool

    /** What is displayed is always the first currentIndex characters of the text. */
    ghost predicate Valid()
      reads this
    {
      currentIndex <= |text| && displayedText == text[..currentIndex]
    }

    /** The first render: nothing typed yet, cursor on. */
    constructor (text: string)
      ensures Valid()
      ensures this.text == text && displayedText == "" && currentIndex == 0 && showCursor
    {
      this.text := text;
      displayedText := "";
      currentIndex := 0;
      showCursor := true;
    }

    /** The typing effect has a tick scheduled. */
    predicate Typing()
      reads this
    {
      currentIndex < |text|
    }

    /** The typing effect calls onComplete. */
    predicate Finished()
      reads this
    {
      currentIndex >= |text|
    }

    /** onComplete is only ever called once the whole text is on screen. */
    lemma FinishedShowsAll()
      requires Valid()
      ensures Finished() ==> displayedText == text && currentIndex == |text|
      ensures Typing() ==> |displayedText| < |text|
    {
    }

    /** The typing timeout: appends the next character and advances the index. */
    method TypingStep()
      requires Valid() && Typing()
      modifies this`displayedText, this`currentIndex
      ensures Valid()
      ensures currentIndex == old(currentIndex) + 1
      ensures displayedText == old(displayedText) + [text[old(currentIndex)]]
    {
      displayedText := displayedText + [text[currentIndex]];
      currentIndex := currentIndex + 1;
    }

    /** The 530 ms blink interval: flips the cursor flag and nothing else. */
    method BlinkTick()
      modifies this`showCursor
      ensures showCursor == !old(showCursor)
      ensures old(Valid()) ==> Valid()
    {
      showCursor := !showCursor;
    }

    /** The cursor is drawn while typing is unfinished, and afterwards only
        in the "on" half of a blink. */
    predicate CursorShown()
      reads this
    {
      currentIndex < |text| || showCursor
    }

    /** While typing the cursor stays visible; once finished it follows the blink flag. */
    lemma CursorWhileTyping()
      ensures Typing() ==> CursorShown()
      ensures Finished() ==> (CursorShown() <==> showCursor)
    {
    }

    /** A new `text` prop. The render with the new text runs the typing
        effect once with the old index before the reset effect runs: it calls
        onComplete (`completed`) when that index is already past the new
        text's end. The reset effect then clears the display and the index. */
    method ChangeText(newText: string) returns (completed: bool)
      modifies this`text, this`displayedText, this`currentIndex
      ensures completed <==> old(currentIndex) >= |newText|
      ensures Valid()
      ensures text == newText && displayedText == "" && currentIndex == 0
    {
      text := newText;
      completed := !(currentIndex < |text|);
      displayedText := "";
      currentIndex := 0;
    }
  }
}
