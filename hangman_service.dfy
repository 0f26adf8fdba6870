/**
 * The guess oracle and word supply of the hangman server
 * (server/src/services/hangmanService.ts).
 *
 * Strings are `seq<char>`. `toLowerCase` is modelled on ASCII only:
 * 'A'..'Z' map to 'a'..'z' and every other character is left unchanged.
 */
module HangmanService {
  import opened Wrappers

  /** The `ValidateGuessResult` record returned by the oracle. */
  datatype ValidateGuessResult = ValidateGuessResult(isCorrect: bool, positions: seq<nat>)

  predicate IsUpper(c: char) { 'A' <= c <= 'Z' }
  predicate IsLower(c: char) { 'a' <= c <= 'z' }

  /** `toLowerCase` on one character, restricted to ASCII. */
  function ToLower(c: char): char
  {
    if IsUpper(c) then (c as int - 'A' as int + 'a' as int) as char else c
  }

  /** `toUpperCase` on one character, restricted to ASCII (used only to state case-insensitivity). */
  function ToUpper(c: char): char
  {
    if IsLower(c) then (c as int - 'a' as int + 'A' as int) as char else c
  }

  /** `String.prototype.toLowerCase`, character by character: no upper-case letter is left. */
  function LowerString(s: string): (r: string)
    ensures |r| == |s|
    ensures forall i :: 0 <= i < |r| ==> !IsUpper(r[i])
  {
    seq(|s|, i requires 0 <= i < |s| => ToLower(s[i]))
  }

  /** Two strings that differ at most in the case of their letters. */
  predicate SameIgnoringCase(s: string, t: string)
  {
    |s| == |t| && forall i :: 0 <= i < |s| ==> ToLower(s[i]) == ToLower(t[i])
  }

  /** Every element strictly larger than the one before it. */
  predicate StrictlyIncreasing(s: seq<nat>)
  {
    forall a, b :: 0 <= a < b < |s| ==> s[a] < s[b]
  }

  /**
   * The indices `i` of `w` (in ascending order) whose one-character string
   * `w[i]` equals `g`. This is the list the loop at
   * hangmanService.ts:35-39 accumulates; it is defined on the prefix so that
   * the loop's invariant can use it directly.
   */
  function Occurrences(w: string, g: string): (r: seq<nat>)
    ensures |r| <= |w|
    ensures forall k :: 0 <= k < |r| ==> r[k] < |w| && [w[r[k]]] == g
    ensures StrictlyIncreasing(r)
    decreases |w|
  {
    if |w| == 0 then []
    else
      var last := |w| - 1;
      var front := Occurrences(w[..last], g);
      assert forall k :: 0 <= k < |front| ==> w[..last][front[k]] == w[front[k]];
      front + (if [w[last]] == g then [last] else [])
  }

  /** Every matching index is listed. */
  lemma {:induction false} OccurrencesComplete(w: string, g: string, i: nat)
    requires i < |w| && [w[i]] == g
    ensures i in Occurrences(w, g)
    decreases |w|
  {
    var last := |w| - 1;
    if i < last {
      assert w[..last][i] == w[i];
      OccurrencesComplete(w[..last], g, i);
    }
  }

  /** Membership in `Occurrences` is exactly "a matching index of `w`". */
  lemma OccurrencesMembership(w: string, g: string, i: nat)
    ensures i in Occurrences(w, g) <==> i < |w| && [w[i]] == g
  {
    if i < |w| && [w[i]] == g {
      OccurrencesComplete(w, g, i);
    }
  }

  /**
   * A string of length other than one never equals a one-character string,
   * so a guess that is not a single character matches nowhere.
   */
  lemma {:induction false} OccurrencesOfNonCharacter(w: string, g: string)
    requires |g| != 1
    ensures Occurrences(w, g) == []
    decreases |w|
  {
    if |w| > 0 {
      OccurrencesOfNonCharacter(w[..|w| - 1], g);
    }
  }

  /**
   * The oracle as a value: lower-case both inputs, collect the matching
   * indices, and report `isCorrect` when there is at least one.
   */
  function ValidateGuessSpec(word: string, guess: string): (r: ValidateGuessResult)
    ensures r.isCorrect <==> r.positions != []
    ensures |r.positions| <= |word|
    ensures forall k :: 0 <= k < |r.positions| ==> r.positions[k] < |word|
  {
    var positions := Occurrences(LowerString(word), LowerString(guess));
    ValidateGuessResult(|positions| > 0, positions)
  }

  /**
   * `HangmanService.validateGuess`: the index loop that pushes every
   * position where the lower-cased word character equals the lower-cased guess.
   */
  method ValidateGuess(word: string, guess: string) returns (result: ValidateGuessResult)
    ensures result == ValidateGuessSpec(word, guess)
    ensures result.isCorrect <==> result.positions != []
  {
    var normalizedWord := LowerString(word);
    var normalizedGuess := LowerString(guess);

    var positions: seq<nat> := [];
    var i := 0;
    while i < |normalizedWord|
      invariant 0 <= i <= |normalizedWord|
      invariant positions == Occurrences(normalizedWord[..i], normalizedGuess)
    {
      assert normalizedWord[..i + 1][..i] == normalizedWord[..i];
      if [normalizedWord[i]] == normalizedGuess {
        positions := positions + [i];
      }
      i := i + 1;
    }
    assert normalizedWord[..i] == normalizedWord;

    result := ValidateGuessResult(|positions| > 0, positions);
  }

  /**
   * Soundness and completeness of the oracle for a one-letter guess: an index
   * is reported exactly when it is inside the word and the word's character
   * there equals the guess, ignoring case.
   */
  lemma ValidateGuessPositions(word: string, guess: string, i: nat)
    requires |guess| == 1
    ensures i in ValidateGuessSpec(word, guess).positions
        <==> i < |word| && ToLower(word[i]) == ToLower(guess[0])
  {
    var nw, ng := LowerString(word), LowerString(guess);
    OccurrencesMembership(nw, ng, i);
    if i < |word| {
      assert [nw[i]] == ng <==> ToLower(word[i]) == ToLower(guess[0]) by {
        assert ng == [ToLower(guess[0])];
      }
    }
  }

  /**
   * The shape of the result: positions ascend strictly (word order, no
   * duplicates), are in range, number at most `|word|`, and `isCorrect`
   * holds exactly when the guessed letter occurs somewhere in the word.
   */
  lemma ValidateGuessShape(word: string, guess: string)
    requires |guess| == 1
    ensures var r := ValidateGuessSpec(word, guess);
      && StrictlyIncreasing(r.positions)
      && |r.positions| <= |word|
      && (forall k :: 0 <= k < |r.positions| ==> r.positions[k] < |word|)
      && (r.isCorrect <==> exists i :: 0 <= i < |word| && ToLower(word[i]) == ToLower(guess[0]))
  {
    var r := ValidateGuessSpec(word, guess);
    if exists i :: 0 <= i < |word| && ToLower(word[i]) == ToLower(guess[0]) {
      var i :| 0 <= i < |word| && ToLower(word[i]) == ToLower(guess[0]);
      ValidateGuessPositions(word, guess, i);
    } else if r.isCorrect {
      var i := r.positions[0];
      ValidateGuessPositions(word, guess, i);
      assert false;
    }
  }

  /** Two strictly increasing sequences with the same elements are equal. */
  lemma {:induction false} StrictlyIncreasingUnique(a: seq<nat>, b: seq<nat>)
    requires StrictlyIncreasing(a) && StrictlyIncreasing(b)
    requires forall x :: x in a <==> x in b
    ensures a == b
    decreases |a|
  {
    assert a == [] <==> b == [] by {
      if a != [] { assert a[0] in b; }
      if b != [] { assert b[0] in a; }
    }
    if a != [] {
      assert a[0] == b[0] by {
        assert a[0] in b && b[0] in a;
        var i :| 0 <= i < |a| && a[i] == b[0];
        var j :| 0 <= j < |b| && b[j] == a[0];
        assert i == 0 || a[0] < a[i];
        assert j == 0 || b[0] < b[j];
      }
      forall x
        ensures x in a[1..] <==> x in b[1..]
      {
        if x in a[1..] {
          var i :| 1 <= i < |a| && a[i] == x;
          assert a[0] < x && x in b;
          var j :| 0 <= j < |b| && b[j] == x;
          assert j != 0 && b[1..][j - 1] == x;
        }
        if x in b[1..] {
          var j :| 1 <= j < |b| && b[j] == x;
          assert b[0] < x && x in a;
          var i :| 0 <= i < |a| && a[i] == x;
          assert i != 0 && a[1..][i - 1] == x;
        }
      }
      StrictlyIncreasingUnique(a[1..], b[1..]);
      assert a == [a[0]] + a[1..] && b == [b[0]] + b[1..];
    }
  }

  /**
   * The positions are the only list of indices that ascends strictly and
   * holds exactly the indices of the guessed letter, ignoring case.
   */
  lemma ValidateGuessPositionsUnique(word: string, guess: string, ps: seq<nat>)
    requires |guess| == 1
    requires StrictlyIncreasing(ps)
    requires forall i: nat :: i in ps <==> i < |word| && ToLower(word[i]) == ToLower(guess[0])
    ensures ps == ValidateGuessSpec(word, guess).positions
  {
    var r := ValidateGuessSpec(word, guess).positions;
    forall x
      ensures x in ps <==> x in r
    {
      ValidateGuessPositions(word, guess, x);
    }
    StrictlyIncreasingUnique(ps, r);
  }

  /** The empty word yields `{isCorrect: false, positions: []}`. */
  lemma ValidateGuessEmptyWord(guess: string)
    ensures ValidateGuessSpec("", guess) == ValidateGuessResult(false, [])
  {
  }

  /** A guess that is not exactly one character is never correct. */
  lemma ValidateGuessNonCharacter(word: string, guess: string)
    requires |guess| != 1
    ensures ValidateGuessSpec(word, guess) == ValidateGuessResult(false, [])
  {
    OccurrencesOfNonCharacter(LowerString(word), LowerString(guess));
  }

  lemma LowerOfUpper(c: char)
    ensures ToLower(ToUpper(c)) == ToLower(c)
  {
  }

  lemma LowerStringIgnoresCase(s: string, t: string)
    requires SameIgnoringCase(s, t)
    ensures LowerString(s) == LowerString(t)
  {
  }

  /**
   * Case-insensitivity: words and guesses that differ only in letter case
   * produce the same result.
   */
  lemma ValidateGuessIgnoresCase(word: string, guess: string, word': string, guess': string)
    requires SameIgnoringCase(word, word') && SameIgnoringCase(guess, guess')
    ensures ValidateGuessSpec(word, guess) == ValidateGuessSpec(word', guess')
  {
    LowerStringIgnoresCase(word, word');
    LowerStringIgnoresCase(guess, guess');
  }

  /**
   * An example of `ValidateGuessIgnoresCase`: upper-casing one letter of
   * the word does not change the result.
   */
  lemma ValidateGuessUpperCaseLetter(word: string, guess: string, k: nat)
    requires k < |word|
    ensures ValidateGuessSpec(word[k := ToUpper(word[k])], guess) == ValidateGuessSpec(word, guess)
  {
    var word' := word[k := ToUpper(word[k])];
    LowerOfUpper(word[k]);
    assert SameIgnoringCase(word', word);
    ValidateGuessIgnoresCase(word', guess, word, guess);
  }

  /**
   * `HangmanService.getRandomWord`. `draw` stands for
   * `Math.floor(Math.random() * wordList.length)`: an index below the length,
   * or 0 for an empty list. An index past the end reads `undefined`, which
   * is `None` here.
   */
  function GetRandomWord(wordList: seq<string>, draw: nat): (r: Option<string>)
    requires draw == 0 || draw < |wordList|
    ensures r.Some? <==> |wordList| > 0
    ensures r.Some? ==> r.value in wordList
  {
    if draw < |wordList| then Some(wordList[draw]) else None
  }
}
