/** Feedback glyphs, their reaction values, and the early-exit helper the
    event handlers use (src/utils.rs). */
module Utils {

  datatype Option<+T> = None | Some(value: T)

  /** The five glyph constants, one Unicode scalar value each. */
  const GreenCircle: char := '\U{1F7E2}'
  const RedCircle: char := '\U{1F534}'
  const Skull: char := '\U{1F480}'
  const HaloSmiley: char := '\U{1F607}'
  const ArrowLoop: char := '\U{1F504}'

  /** The chat platform's reaction value: a Unicode emoji given by its text,
      or a custom guild emoji. Equality is structural, as the derived
      `PartialEq` of the platform library is. */
  datatype ReactionType =
    | Unicode(text: string)
    | Custom(id: nat, name: Option<string>, animated: bool)

  /** Feedback for "script compiled" and "script enabled". */
  function ReactSuccess(): ReactionType { Unicode([GreenCircle]) }

  /** Feedback for "script failed to compile" and "script disabled". */
  function ReactFailure(): ReactionType { Unicode([RedCircle]) }

  /** Feedback for "a hook raised a runtime fault". */
  function ReactSkull(): ReactionType { Unicode([Skull]) }

  /** Feedback for "a hook ran to completion". */
  function ReactHalo(): ReactionType { Unicode([HaloSmiley]) }

  /** A glyph the handlers never emit. */
  function ReactLoop(): ReactionType { Unicode([ArrowLoop]) }

  /** The reactions are single-glyph Unicode reactions with exactly the code
      points the source names. */
  lemma ReactionGlyphs()
    ensures ReactSuccess() == Unicode([0x1F7E2 as char])
    ensures ReactFailure() == Unicode([0x1F534 as char])
    ensures ReactSkull() == Unicode([0x1F480 as char])
    ensures ReactHalo() == Unicode([0x1F607 as char])
    ensures ReactLoop() == Unicode([0x1F504 as char])
  {
  }

  /** The five reactions are pairwise distinct, so the four feedback
      categories (success, failure, executed, fault) can be told apart. */
  lemma ReactionsDistinct()
    ensures ReactSuccess() != ReactFailure() && ReactSuccess() != ReactSkull()
    ensures ReactSuccess() != ReactHalo() && ReactSuccess() != ReactLoop()
    ensures ReactFailure() != ReactSkull() && ReactFailure() != ReactHalo()
    ensures ReactFailure() != ReactLoop() && ReactSkull() != ReactHalo()
    ensures ReactSkull() != ReactLoop() && ReactHalo() != ReactLoop()
  {
  }

  /** What the `some_or_return!` macro does to its enclosing function: go on
      with the unwrapped value, or return at once. */
  datatype Flow<+T> = Continue(value: T) | Return

  function SomeOrReturn<T>(e: Option<T>): Flow<T> {
    if e.Some? then Continue(e.value) else Return
  }
}
