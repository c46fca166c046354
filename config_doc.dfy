/**
 * Configuration documents as the skill sees them once parsed from JSON: nested
 * objects keyed by strings, and the three dict operations the constructor of
 * the skill performs on them (item assignment, guarded `del`, indexing), with
 * the exceptions Python raises when a key is missing or a value is not a dict.
 */
module ConfigDoc {
  import opened Wrappers

  /** A JSON value. Objects are Python dicts; the other cases are leaves. */
  datatype Json =
    | Obj(fields: map<string, Json>)
    | Arr(items: seq<Json>)
    | Str(text: string)
    | Num(number: real)
    | Bool(flag: bool)
    | Null

  /** A sequence of keys, `["metadata", "variables"]` for `config['metadata']['variables']`. */
  type Path = seq<string>

  /** The value reached by indexing `doc` with each key of `path` in turn, if every step succeeds. */
  function Get(doc: Json, path: Path): Option<Json>
    decreases path
  {
    if path == [] then Some(doc)
    else if doc.Obj? && path[0] in doc.fields then Get(doc.fields[path[0]], path[1..])
    else None
  }

  /** The fields of the object at `path`, if there is an object there. */
  function Section(doc: Json, path: Path): Option<map<string, Json>>
  {
    match Get(doc, path)
    case Some(Obj(fields)) => Some(fields)
    case _ => None
  }

  /** The exceptions Python raises while indexing a configuration. */
  datatype ConfigError =
    | KeyError(path: Path)   // the last key of `path` is missing from the object holding it
    | TypeError(path: Path)  // the value at `path` is not a dict, so it cannot be indexed or assigned into

  /** One in-place edit of a dict: `d[key] = value`, or `if key in d: del d[key]`. */
  datatype Edit = Assign(key: string, value: Json) | DeleteIfPresent(key: string)

  /** The dict `fields` after the edit `e`. */
  function ApplyEdit(fields: map<string, Json>, e: Edit): (r: map<string, Json>)
    ensures e.key !in r <==> e.DeleteIfPresent?
    ensures e.Assign? ==> r[e.key] == e.value
    ensures forall k :: k != e.key ==> (k in r <==> k in fields)
    ensures forall k :: k != e.key && k in fields ==> r[k] == fields[k]
  {
    match e
    case Assign(k, v) => fields[k := v]
    case DeleteIfPresent(k) => fields - {k}
  }

  /** What the edit leaves at its key: the assigned value, or nothing after a delete. */
  function EditedValue(e: Edit): Option<Json>
  {
    match e
    case Assign(_, v) => Some(v)
    case DeleteIfPresent(_) => None
  }

  /**
   * The statement `doc[s0][s1]...[sn][key] = value` (or the guarded `del`) for
   * `section == [s0, ..., sn]`, applied to the part of a document reached by
   * the keys `at`: it fails exactly where Python raises.
   */
  function UpdateWithin(doc: Json, at: Path, section: Path, e: Edit): (r: Result<Json, ConfigError>)
    ensures r.Success? <==> Section(doc, section).Some?
    ensures r.Success? ==> Section(r.value, section) == Some(ApplyEdit(Section(doc, section).value, e))
    ensures r.Failure? ==> at <= r.error.path <= at + section
    decreases section
  {
    if !doc.Obj? then Failure(TypeError(at))
    else if section == [] then Success(Obj(ApplyEdit(doc.fields, e)))
    else if section[0] !in doc.fields then Failure(KeyError(at + [section[0]]))
    else
      var inner :- UpdateWithin(doc.fields[section[0]], at + [section[0]], section[1..], e);
      Success(Obj(doc.fields[section[0] := inner]))
  }

  /** The edit `e` applied to the object at `section` of a whole document. */
  function Update(doc: Json, section: Path, e: Edit): Result<Json, ConfigError>
  {
    UpdateWithin(doc, [], section, e)
  }

  /** `p` and `t` part ways: neither is a prefix of the other. */
  predicate Diverges(p: Path, t: Path)
  {
    !(p <= t) && !(t <= p)
  }

  /**
   * What a successful update changes: the edited key holds what the edit
   * leaves there, every object on the way to it is still an object, and every
   * path that parts ways with the edited key reads as before.
   */
  lemma {:induction false} UpdateWithinFrame(doc: Json, at: Path, section: Path, e: Edit)
    requires UpdateWithin(doc, at, section, e).Success?
    ensures var r := UpdateWithin(doc, at, section, e).value;
      && Get(r, section + [e.key]) == EditedValue(e)
      && (forall p :: p < section + [e.key] ==> Section(r, p).Some?)
      && (forall p :: Diverges(p, section + [e.key]) ==> Get(r, p) == Get(doc, p))
    decreases section
  {
    var r := UpdateWithin(doc, at, section, e).value;
    var t := section + [e.key];
    if section == [] {
      assert t == [e.key];
      assert Get(r, t) == EditedValue(e);
      forall p | p < t ensures Section(r, p).Some? {
        assert p == [];
      }
      forall p | Diverges(p, t) ensures Get(r, p) == Get(doc, p) {
        assert p != [] && p[0] != e.key;
      }
    } else {
      var s0 := section[0];
      var child := doc.fields[s0];
      var inner := UpdateWithin(child, at + [s0], section[1..], e).value;
      UpdateWithinFrame(child, at + [s0], section[1..], e);
      var t' := section[1..] + [e.key];
      assert r == Obj(doc.fields[s0 := inner]);
      assert t == [s0] + t';
      assert t[1..] == t';
      assert Get(r, t) == Get(inner, t');
      forall p | p < t ensures Section(r, p).Some? {
        if p != [] {
          assert p[0] == s0;
          assert p[1..] < t';
          assert Section(inner, p[1..]).Some?;
          assert Get(r, p) == Get(inner, p[1..]);
          assert Section(r, p) == Section(inner, p[1..]);
        }
      }
      forall p | Diverges(p, t) ensures Get(r, p) == Get(doc, p) {
        assert p != [];
        if p[0] == s0 {
          assert p == [s0] + p[1..];
          assert Diverges(p[1..], t');
        }
      }
    }
  }
}
