/**
 * The recursive update that applies a caller's override document to a
 * configuration (`update_dict_recursive`). Its body is not part of this
 * model; it is defined here by the conventional rule: for a key present in
 * both documents where both values are objects, merge them key by key;
 * otherwise the override's value replaces the base's; keys only in the base
 * are kept.
 */
module RecursiveMerge {
  import opened Wrappers
  import opened ConfigDoc

  /** `base` with `edit` merged into it. */
  function Merge(base: Json, edit: Json): (r: Json)
    ensures base.Obj? && edit.Obj? ==> r.Obj? && r.fields.Keys == base.fields.Keys + edit.fields.Keys
    ensures !edit.Obj? ==> r == edit
    decreases edit
  {
    if base.Obj? && edit.Obj? then
      Obj(map k | k in base.fields.Keys + edit.fields.Keys ::
        if k !in edit.fields then base.fields[k]
        else if k in base.fields then Merge(base.fields[k], edit.fields[k])
        else edit.fields[k])
    else edit
  }

  /**
   * Walking `p` through the override leaves it at an object that lacks the
   * next key: the override says nothing about `p`.
   */
  predicate OutsideOverride(edit: Json, p: Path)
    decreases p
  {
    |p| > 0 && edit.Obj? && (p[0] !in edit.fields || OutsideOverride(edit.fields[p[0]], p[1..]))
  }

  lemma {:induction false} OutsideOverrideMissing(edit: Json, p: Path)
    requires OutsideOverride(edit, p)
    ensures Get(edit, p) == None
    decreases p
  {
    if p[0] in edit.fields {
      OutsideOverrideMissing(edit.fields[p[0]], p[1..]);
    }
  }

  /**
   * What the merged document holds at any path: the base's value where the
   * override says nothing; the base's value there merged with the override's
   * where the override reaches the path (so a non-object override value wins
   * outright); and nothing where the override put a non-object above the path.
   */
  lemma {:induction false} MergeAt(base: Json, edit: Json, p: Path)
    ensures Get(Merge(base, edit), p) ==
      if OutsideOverride(edit, p) then Get(base, p)
      else if Get(edit, p).Some? then Some(Merge(Get(base, p).GetOr(Null), Get(edit, p).value))
      else None
    decreases p
  {
    var m := Merge(base, edit);
    if p == [] {
    } else if !edit.Obj? {
      assert m == edit;
    } else if p[0] !in edit.fields {
      if !base.Obj? {
        assert m == edit;
      }
    } else {
      var k, q := p[0], p[1..];
      MergeAt(if base.Obj? && k in base.fields then base.fields[k] else Null, edit.fields[k], q);
      if OutsideOverride(edit.fields[k], q) {
        OutsideOverrideMissing(edit.fields[k], q);
      }
    }
  }

  /** Where the override says nothing, the merged document reads as the base. */
  lemma MergeKeeps(base: Json, edit: Json, p: Path)
    requires OutsideOverride(edit, p)
    ensures Get(Merge(base, edit), p) == Get(base, p)
  {
    MergeAt(base, edit, p);
  }

  /** A non-object value the override holds at any depth is what the merged document holds there. */
  lemma {:induction false} MergeOverrides(base: Json, edit: Json, p: Path)
    requires Get(edit, p).Some? && !Get(edit, p).value.Obj?
    ensures Get(Merge(base, edit), p) == Get(edit, p)
  {
    if OutsideOverride(edit, p) {
      OutsideOverrideMissing(edit, p);
    }
    MergeAt(base, edit, p);
  }
}
