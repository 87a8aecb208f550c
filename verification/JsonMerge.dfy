/** Merging a tool-call update into the JSON known so far. */
module JsonMerge {
  import opened Wrappers
  import opened StreamDelta

  datatype Json =
    | Null
    | Bool(value: bool)
    | Number(text: string)
    | Str(content: Text)
    | Array(items: seq<Json>)
    | Object(fields: map<string, Json>)

  /** A field with this value is passed over. */
  predicate Empty(v: Json) {
    v == Null || v == Str([])
  }

  /** The result, field by field and without any order. */
  function Merged(current: Json, update: Json): Json
    decreases update
  {
    if current.Object? && update.Object? then
      Object(map key | key in current.fields.Keys + update.fields.Keys
               && (key in current.fields || !Empty(update.fields[key]))
               :: if key !in update.fields || Empty(update.fields[key]) then current.fields[key]
                  else if key in current.fields then Merged(current.fields[key], update.fields[key])
                  else update.fields[key])
    else if update != Null then update
    else current
  }

  /** Whatever order the fields come in, the loop computes `Merged`. */
  method MergeJson(current: Json, update: Json) returns (r: Json)
    ensures r == Merged(current, update)
    decreases update
  {
    if current.Object? && update.Object? {
      var fields := current.fields;
      var left := update.fields.Keys;
      while left != {}
        invariant left <= update.fields.Keys
        invariant forall key :: key in fields <==>
          key in current.fields || (key in update.fields && key !in left && !Empty(update.fields[key]))
        invariant forall key :: key in fields ==>
          fields[key] == if key !in update.fields || key in left || Empty(update.fields[key]) then current.fields[key]
                         else if key in current.fields then Merged(current.fields[key], update.fields[key])
                         else update.fields[key]
      {
        var key :| key in left;
        left := left - {key};
        var value := update.fields[key];
        if Empty(value) { continue; }
        if key in fields {
          assert key in current.fields;
          var merged := MergeJson(fields[key], value);
          fields := fields[key := merged];
        } else {
          fields := fields[key := value];
        }
      }
      assert fields == Merged(current, update).fields;
      r := Object(fields);
    } else if update != Null {
      r := update;
    } else {
      r := current;
    }
  }

  lemma {:induction false} MergedWithItself(v: Json)
    ensures Merged(v, v) == v
    decreases v
  {
    if v.Object? {
      forall key | key in v.fields && !Empty(v.fields[key]) ensures Merged(v.fields[key], v.fields[key]) == v.fields[key] {
        MergedWithItself(v.fields[key]);
      }
      assert Merged(v, v).fields == v.fields;
    }
  }

  /** Applying the same update again changes nothing. */
  lemma {:induction false} MergedTwice(current: Json, update: Json)
    ensures Merged(Merged(current, update), update) == Merged(current, update)
    decreases update
  {
    var once := Merged(current, update);
    if current.Object? && update.Object? {
      forall key | key in once.fields && key in update.fields && !Empty(update.fields[key])
        ensures Merged(once.fields[key], update.fields[key]) == once.fields[key]
      {
        if key in current.fields {
          MergedTwice(current.fields[key], update.fields[key]);
        } else {
          MergedWithItself(update.fields[key]);
        }
      }
      assert Merged(once, update).fields == once.fields;
    } else if update != Null {
      MergedWithItself(update);
    }
  }

  // ---------------------------------------------------------------- along a path

  function At(v: Json, path: seq<string>): Option<Json> {
    if path == [] then Some(v)
    else if v.Object? && path[0] in v.fields then At(v.fields[path[0]], path[1..])
    else None
  }

  /** Both documents are objects all the way to the last field of the path. */
  predicate Meet(current: Json, update: Json, path: seq<string>) {
    path != [] ==>
      && current.Object? && update.Object?
      && (|path| > 1 ==>
            && path[0] in current.fields && path[0] in update.fields
            && Meet(current.fields[path[0]], update.fields[path[0]], path[1..]))
  }

  /** Wherever the two documents meet: an existing field never disappears, a missing, null or empty field of
      the update leaves it alone, a field that only the update has is taken over if it is not empty, and a
      value that is not an object on both sides is replaced. */
  lemma {:induction false} MergedAt(current: Json, update: Json, path: seq<string>)
    requires path != [] && Meet(current, update, path)
    ensures var before, change, after := At(current, path), At(update, path), At(Merged(current, update), path);
            && (before.Some? ==> after.Some?)
            && (change == None || Empty(change.value) ==> after == before)
            && (before == None && change.Some? && !Empty(change.value) ==> after == change)
            && (before.Some? && change.Some? && !Empty(change.value) ==>
                  if before.value.Object? && change.value.Object? then after.value == Merged(before.value, change.value)
                  else after == change)
    decreases |path|
  {
    var key := path[0];
    if |path| == 1 {
      assert path[1..] == [];
    } else {
      MergedAt(current.fields[key], update.fields[key], path[1..]);
    }
  }

  // ---------------------------------------------------------------- nulls

  predicate HasNull(v: Json) {
    match v
    case Null => true
    case Array(items) => exists i :: 0 <= i < |items| && HasNull(items[i])
    case Object(fields) => exists key :: key in fields && HasNull(fields[key])
    case _ => false
  }

  /** The update's value at the path replaces the current one, or is added, as it is: the documents meet on the
      way there, the value is not passed over, and they are not both objects there. */
  predicate TakenWhole(current: Json, update: Json, path: seq<string>) {
    && Meet(current, update, path) && At(update, path).Some?
    && (if path == [] then update != Null else !Empty(At(update, path).value))
    && !(At(current, path).Some? && At(current, path).value.Object? && At(update, path).value.Object?)
  }

  /** The current value at the path stays as it is: the documents meet on the way there, and the update has
      nothing there or a value that is passed over. */
  predicate KeptWhole(current: Json, update: Json, path: seq<string>) {
    && Meet(current, update, path) && At(current, path).Some?
    && (if path == [] then update == Null else At(update, path) == None || Empty(At(update, path).value))
  }

  ghost predicate TakesNull(current: Json, update: Json) {
    exists path :: TakenWhole(current, update, path) && HasNull(At(update, path).value)
  }

  ghost predicate KeepsNull(current: Json, update: Json) {
    exists path :: KeptWhole(current, update, path) && HasNull(At(current, path).value)
  }

  lemma TakenBelow(current: Json, update: Json, key: string, path: seq<string>)
    requires current.Object? && update.Object? && key in update.fields
    ensures At(update, [key] + path) == At(update.fields[key], path)
    ensures Empty(update.fields[key]) ==> !TakenWhole(current, update, [key] + path)
    ensures !Empty(update.fields[key]) && key in current.fields ==>
              (TakenWhole(current, update, [key] + path) <==> TakenWhole(current.fields[key], update.fields[key], path))
    ensures !Empty(update.fields[key]) && key !in current.fields ==>
              (TakenWhole(current, update, [key] + path) <==> path == [])
  {
    assert ([key] + path)[1..] == path;
  }

  lemma KeptBelow(current: Json, update: Json, key: string, path: seq<string>)
    requires current.Object? && update.Object? && key in current.fields
    ensures At(current, [key] + path) == At(current.fields[key], path)
    ensures key !in update.fields || Empty(update.fields[key]) ==> (KeptWhole(current, update, [key] + path) <==> path == [])
    ensures key in update.fields && !Empty(update.fields[key]) ==>
              (KeptWhole(current, update, [key] + path) <==> KeptWhole(current.fields[key], update.fields[key], path))
  {
    assert ([key] + path)[1..] == path;
    assert key in update.fields ==> At(update, [key] + path) == At(update.fields[key], path);
  }

  /** Whatever the documents: the result holds a null exactly if a value that the update brings whole holds one,
      or one that stays as it was does. So the fields that are passed over are the only nulls of an update that
      do not arrive. */
  lemma {:induction false} NullsArriveExactly(current: Json, update: Json)
    ensures HasNull(Merged(current, update)) <==> TakesNull(current, update) || KeepsNull(current, update)
    decreases update
  {
    hide TakenWhole, KeptWhole;
    if current.Object? && update.Object? {
      forall key | key in current.fields || key in update.fields
        ensures FieldTakesNull(current, update, key) || FieldKeepsNull(current, update, key) <==>
                  key in Merged(current, update).fields && HasNull(Merged(current, update).fields[key])
      {
        if key in current.fields && key in update.fields && !Empty(update.fields[key]) {
          NullsArriveExactly(current.fields[key], update.fields[key]);
        }
        FieldMeans(current, update, key);
      }
      AnyField(current, update);
    } else {
      WholeMeans(current, update);
    }
  }

  ghost predicate FieldTakesNull(current: Json, update: Json, key: string) {
    key in (if update.Object? then update.fields else map[]) &&
    exists path :: TakenWhole(current, update, [key] + path) && HasNull(At(update, [key] + path).value)
  }

  ghost predicate FieldKeepsNull(current: Json, update: Json, key: string) {
    key in (if current.Object? then current.fields else map[]) &&
    exists path :: KeptWhole(current, update, [key] + path) && HasNull(At(current, [key] + path).value)
  }

  /** What one field contributes, by where it is and whether it is passed over. */
  lemma FieldMeans(current: Json, update: Json, key: string)
    requires current.Object? && update.Object?
    ensures FieldTakesNull(current, update, key) <==>
              && key in update.fields && !Empty(update.fields[key])
              && if key in current.fields then TakesNull(current.fields[key], update.fields[key]) else HasNull(update.fields[key])
    ensures FieldKeepsNull(current, update, key) <==>
              && key in current.fields
              && if key in update.fields && !Empty(update.fields[key])
                 then KeepsNull(current.fields[key], update.fields[key]) else HasNull(current.fields[key])
  {
    hide TakenWhole, KeptWhole, HasNull;
    if key in update.fields {
      forall path { TakenBelow(current, update, key, path); }
      assert TakenWhole(current, update, [key] + []) ==> At(update, [key] + []).Some?;
    }
    if key in current.fields {
      forall path { KeptBelow(current, update, key, path); }
      assert KeptWhole(current, update, [key] + []) ==> At(current, [key] + []).Some?;
    }
  }

  lemma AnyField(current: Json, update: Json)
    requires current.Object? && update.Object?
    ensures TakesNull(current, update) <==> exists key :: key in update.fields && FieldTakesNull(current, update, key)
    ensures KeepsNull(current, update) <==> exists key :: key in current.fields && FieldKeepsNull(current, update, key)
  {
    hide HasNull;
    forall path | TakenWhole(current, update, path) && HasNull(At(update, path).value)
      ensures path != [] && path[0] in update.fields && FieldTakesNull(current, update, path[0])
    {
      assert path != [] && [path[0]] + path[1..] == path;
    }
    forall path | KeptWhole(current, update, path) && HasNull(At(current, path).value)
      ensures path != [] && path[0] in current.fields && FieldKeepsNull(current, update, path[0])
    {
      assert path != [] && [path[0]] + path[1..] == path;
    }
  }

  lemma WholeMeans(current: Json, update: Json)
    requires !(current.Object? && update.Object?)
    ensures TakesNull(current, update) <==> update != Null && HasNull(update)
    ensures KeepsNull(current, update) <==> update == Null && HasNull(current)
  {
    hide HasNull;
    assert TakenWhole(current, update, []) <==> update != Null;
    assert KeptWhole(current, update, []) <==> update == Null;
    assert forall path :: TakenWhole(current, update, path) || KeptWhole(current, update, path) ==> path == [];
  }

  /** Into a document without nulls, and into the `Null` that a tool's input starts as, only what is taken over
      whole brings one; a `Null` that meets a `Null` stays. */
  lemma NullsArriveInto(current: Json, update: Json)
    requires !HasNull(current) || current == Null
    ensures HasNull(Merged(current, update)) <==> TakesNull(current, update) || (current == Null && update == Null)
  {
    hide TakenWhole;
    NullsArriveExactly(current, update);
    if !HasNull(current) {
      forall path | KeptWhole(current, update, path) ensures !HasNull(At(current, path).value) { NoNullAt(current, path); }
    } else {
      WholeMeans(current, update);
    }
  }

  lemma {:induction false} NoNullAt(v: Json, path: seq<string>)
    requires !HasNull(v) && At(v, path).Some?
    ensures !HasNull(At(v, path).value)
    decreases |path|
  {
    if path != [] { NoNullAt(v.fields[path[0]], path[1..]); }
  }
}
