/**
 * The recipe editor: a title, the two editable lists handed over by the
 * selector, and the two input boxes whose contents are appended to them.
 */
module Editor {
  import opened Text

  /** `prev.filter((_, i) => i !== index)`: drops the element at `index`.
      An index outside the list matches no position and drops nothing, so
      the length drops by one exactly when the index is in range. */
  function WithoutIndex<T>(s: seq<T>, index: int): (r: seq<T>)
    ensures |r| == if 0 <= index < |s| then |s| - 1 else |s|
  {
    if s == [] then []
    else (if index == 0 then [] else [s[0]]) + WithoutIndex(s[1..], index - 1)
  }

  /** Removing at an index in range yields the elements before it followed
      by the elements after it, in order; any other index leaves the list
      as it was. */
  lemma {:induction false} WithoutIndexSpec<T>(s: seq<T>, index: int)
    ensures 0 <= index < |s| ==> WithoutIndex(s, index) == s[..index] + s[index + 1..]
    ensures !(0 <= index < |s|) ==> WithoutIndex(s, index) == s
  {
    if s != [] {
      WithoutIndexSpec(s[1..], index - 1);
      if index == 0 {
        assert s[1..] == s[..0] + s[1..];
      } else if 0 < index < |s| {
        assert s[..index] == [s[0]] + s[1..][..index - 1];
        assert s[index + 1..] == s[1..][index..];
      } else {
        assert s == [s[0]] + s[1..];
      }
    }
  }

  lemma SliceReinsert<T>(s: seq<T>, index: int)
    requires 0 <= index < |s|
    ensures var r := s[..index] + s[index + 1..];
      |r| == |s| - 1 && r[..index] + [s[index]] + r[index..] == s
  {
    var r := s[..index] + s[index + 1..];
    assert r[..index] == s[..index];
    assert r[index..] == s[index + 1..];
    assert s == s[..index] + [s[index]] + s[index + 1..];
  }

  /** Putting the removed element back where it was restores the list. */
  lemma WithoutIndexReinsert<T>(s: seq<T>, index: int)
    requires 0 <= index < |s|
    ensures |WithoutIndex(s, index)| == |s| - 1
    ensures var r := WithoutIndex(s, index);
      r[..index] + [s[index]] + r[index..] == s
  {
    WithoutIndexSpec(s, index);
    SliceReinsert(s, index);
  }

  /** Every element that survives a removal was in the list. */
  lemma WithoutIndexMembers<T>(s: seq<T>, index: int, x: T)
    requires x in WithoutIndex(s, index)
    ensures x in s
  {
    WithoutIndexSpec(s, index);
    if 0 <= index < |s| {
      assert s == s[..index] + s[index + 1..] || x in s[..index] + s[index + 1..];
      if x in s[..index] {
        var j :| 0 <= j < index && s[..index][j] == x;
        assert s[j] == x;
      } else {
        var j :| 0 <= j < |s| - index - 1 && s[index + 1..][j] == x;
        assert s[index + 1 + j] == x;
      }
    }
  }

  /** Adding the trimmed input of a non-blank box keeps a clean list clean. */
  lemma AppendTrimmedClean(xs: seq<string>, input: string)
    requires Clean(xs) && Trim(input) != ""
    ensures Clean(xs + [Trim(input)])
  {
  }

  /** Removing an entry keeps a clean list clean. */
  lemma WithoutIndexClean(xs: seq<string>, index: int)
    requires Clean(xs)
    ensures Clean(WithoutIndex(xs, index))
  {
    var r := WithoutIndex(xs, index);
    forall k | 0 <= k < |r| ensures r[k] != "" && IsTrimmed(r[k]) {
      assert r[k] in r;
      WithoutIndexMembers(xs, index, r[k]);
    }
  }

  /** The editor's state. */
  class TextEditor {
    var title: string
    var ingredients: seq<string>
    var instructions: seq<string>
    var newIngredient: string
    var newInstruction: string

    /** Starts with the placeholder title, the lists as handed over, and both
        input boxes empty. */
    constructor (initialIngredients: seq<string>, initialInstructions: seq<string>)
      ensures title == "Recipe Title"
      ensures ingredients == initialIngredients && instructions == initialInstructions
      ensures newIngredient == "" && newInstruction == ""
    {
      title := "Recipe Title";
      ingredients := initialIngredients;
      instructions := initialInstructions;
      newIngredient := "";
      newInstruction := "";
    }

    /** The title input's `onChange`. */
    method SetTitle(value: string)
      modifies this`title
      ensures title == value
    {
      title := value;
    }

    /** The ingredient input box's `onChange`. */
    method SetNewIngredient(value: string)
      modifies this`newIngredient
      ensures newIngredient == value
    {
      newIngredient := value;
    }

    /** The instruction input box's `onChange`. */
    method SetNewInstruction(value: string)
      modifies this`newInstruction
      ensures newInstruction == value
    {
      newInstruction := value;
    }

    /** `addIngredient`: a box that is not blank contributes its trimmed text
        as the last ingredient and is cleared; a blank box changes nothing.
        Instructions and the title are outside the frame. */
    method AddIngredient()
      modifies this`ingredients, this`newIngredient
      ensures Trim(old(newIngredient)) != "" ==>
        ingredients == old(ingredients) + [Trim(old(newIngredient))] && newIngredient == ""
      ensures Trim(old(newIngredient)) == "" ==>
        ingredients == old(ingredients) && newIngredient == old(newIngredient)
      ensures Clean(old(ingredients)) ==> Clean(ingredients)
    {
      var trimmed := Trim(newIngredient);
      if trimmed != "" {
        if Clean(ingredients) { AppendTrimmedClean(ingredients, newIngredient); }
        ingredients := ingredients + [trimmed];
        newIngredient := "";
      }
    }

    /** `addInstruction`, the same for the instruction list. Ingredients and
        the title are outside the frame. */
    method AddInstruction()
      modifies this`instructions, this`newInstruction
      ensures Trim(old(newInstruction)) != "" ==>
        instructions == old(instructions) + [Trim(old(newInstruction))] && newInstruction == ""
      ensures Trim(old(newInstruction)) == "" ==>
        instructions == old(instructions) && newInstruction == old(newInstruction)
      ensures Clean(old(instructions)) ==> Clean(instructions)
    {
      var trimmed := Trim(newInstruction);
      if trimmed != "" {
        if Clean(instructions) { AppendTrimmedClean(instructions, newInstruction); }
        instructions := instructions + [trimmed];
        newInstruction := "";
      }
    }

    /** `removeIngredient`: drops the ingredient at `index`, keeping the
        others in order; an index out of range changes nothing. */
    method RemoveIngredient(index: int)
      modifies this`ingredients
      ensures ingredients == WithoutIndex(old(ingredients), index)
      ensures 0 <= index < |old(ingredients)| ==>
        ingredients == old(ingredients)[..index] + old(ingredients)[index + 1..]
      ensures !(0 <= index < |old(ingredients)|) ==> ingredients == old(ingredients)
      ensures Clean(old(ingredients)) ==> Clean(ingredients)
    {
      WithoutIndexSpec(ingredients, index);
      if Clean(ingredients) { WithoutIndexClean(ingredients, index); }
      ingredients := WithoutIndex(ingredients, index);
    }

    /** `removeInstruction`, the same for the instruction list. */
    method RemoveInstruction(index: int)
      modifies this`instructions
      ensures instructions == WithoutIndex(old(instructions), index)
      ensures 0 <= index < |old(instructions)| ==>
        instructions == old(instructions)[..index] + old(instructions)[index + 1..]
      ensures !(0 <= index < |old(instructions)|) ==> instructions == old(instructions)
      ensures Clean(old(instructions)) ==> Clean(instructions)
    {
      WithoutIndexSpec(instructions, index);
      if Clean(instructions) { WithoutIndexClean(instructions, index); }
      instructions := WithoutIndex(instructions, index);
    }

    /** `handleComplete`: hands the title and both lists on unchanged. */
    method HandleComplete() returns (t: string, ingredientsOut: seq<string>, instructionsOut: seq<string>)
      ensures t == title && ingredientsOut == ingredients && instructionsOut == instructions
    {
      t, ingredientsOut, instructionsOut := title, ingredients, instructions;
    }

    /** The "Generate Recipe" button is enabled unless both lists are empty. */
    method CanGenerate() returns (enabled: bool)
      ensures enabled <==> ingredients != [] || instructions != []
    {
      enabled := !(|ingredients| == 0 && |instructions| == 0);
    }
  }
}
