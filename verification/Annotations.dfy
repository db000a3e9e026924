/** The workflow element annotations codec (api/generated.go): two known string
    members, everything else kept as additional properties. JSON text is left out;
    values are encoded to and decoded from JSON values. */
module Annotations {
  import opened Json

  const DESCRIPTION := "description"
  const DISPLAY_NAME := "displayName"

  /** The fields of an annotations value; `extras` None is the nil map. */
  datatype Fields = Fields(description: Option<string>, displayName: Option<string>, extras: Option<map<string, Value>>)

  const BLANK := Fields(None, None, None)

  predicate StringOrNull(v: Value) { v.Str? || v.Null? }

  predicate KnownOk(members: map<string, Value>, name: string) {
    name in members ==> StringOrNull(members[name])
  }

  function AsPointer(v: Value): Option<string> {
    if v.Str? then Some(v.s) else None
  }

  function Extras(members: map<string, Value>): map<string, Value> {
    members - {DESCRIPTION, DISPLAY_NAME}
  }

  /** Decoding into fields that may already hold something: members that are absent
      leave their field alone, and null clears it. */
  function Decoded(a: Fields, members: map<string, Value>): Fields {
    Fields(
      if DESCRIPTION in members then AsPointer(members[DESCRIPTION]) else a.description,
      if DISPLAY_NAME in members then AsPointer(members[DISPLAY_NAME]) else a.displayName,
      if Extras(members) != map[] then Some(Extras(members)) else a.extras)
  }

  function Members(a: Fields): map<string, Value> {
    (if a.description.Some? then map[DESCRIPTION := Str(a.description.value)] else map[]) +
    (if a.displayName.Some? then map[DISPLAY_NAME := Str(a.displayName.value)] else map[]) +
    (if a.extras.Some? then a.extras.value else map[])
  }

  function Property(a: Fields, name: string): Option<Value> {
    if a.extras.Some? && name in a.extras.value then Some(a.extras.value[name]) else None
  }

  function WithProperty(a: Fields, name: string, value: Value): Fields {
    a.(extras := Some((if a.extras.Some? then a.extras.value else map[])[name := value]))
  }

  class WorkflowElementAnnotations {
    var fields: Fields

    constructor ()
      ensures fields == BLANK
    {
      fields := BLANK;
    }

    /** Getter for an additional property. */
    method Get(name: string) returns (value: Option<Value>)
      ensures value == Property(fields, name)
    {
      value := None;
      if fields.extras.Some? && name in fields.extras.value {
        value := Some(fields.extras.value[name]);
      }
    }

    /** Setter for an additional property, making the map if there is none. */
    method Set(name: string, value: Value)
      modifies this
      ensures fields == WithProperty(old(fields), name, value)
    {
      var extras := if fields.extras.Some? then fields.extras.value else map[];
      fields := fields.(extras := Some(extras[name := value]));
    }

    /** UnmarshalJSON. Anything but an object or null is refused, and so is a known
        member that is neither a string nor null; a refused displayName leaves the
        description already set. */
    method Unmarshal(v: Value) returns (ok: bool)
      modifies this
      ensures ok <==> v.Null? || (v.Obj? && KnownOk(v.fields, DESCRIPTION) && KnownOk(v.fields, DISPLAY_NAME))
      ensures ok && v.Obj? ==> fields == Decoded(old(fields), v.fields)
      ensures !ok || v.Null? ==>
        fields == if v.Obj? && DESCRIPTION in v.fields && KnownOk(v.fields, DESCRIPTION)
                  then old(fields).(description := AsPointer(v.fields[DESCRIPTION])) else old(fields)
    {
      if !v.Obj? {
        return v.Null?;
      }
      var members := v.fields;
      if DESCRIPTION in members {
        if !StringOrNull(members[DESCRIPTION]) {
          return false;
        }
        fields := fields.(description := AsPointer(members[DESCRIPTION]));
        members := members - {DESCRIPTION};
      }
      if DISPLAY_NAME in members {
        if !StringOrNull(members[DISPLAY_NAME]) {
          return false;
        }
        fields := fields.(displayName := AsPointer(members[DISPLAY_NAME]));
        members := members - {DISPLAY_NAME};
      }
      assert members == Extras(v.fields);
      if members != map[] {
        var extras := CopyAll(members);
        fields := fields.(extras := Some(extras));
      }
      return true;
    }

    /** MarshalJSON: the known members first, then the additional properties over
        them. */
    method Marshal() returns (v: Value)
      ensures v == Obj(Members(fields))
    {
      var members: map<string, Value> := map[];
      if fields.description.Some? {
        members := members[DESCRIPTION := Str(fields.description.value)];
      }
      if fields.displayName.Some? {
        members := members[DISPLAY_NAME := Str(fields.displayName.value)];
      }
      ghost var known := members;
      var extras := if fields.extras.Some? then fields.extras.value else map[];
      var rest := extras.Keys;
      while rest != {}
        invariant rest <= extras.Keys
        invariant members == known + (extras - rest)
        decreases rest
      {
        var name := AnyOf(rest);
        members := members[name := extras[name]];
        rest := rest - {name};
      }
      assert extras - {} == extras;
      assert members == Members(fields);
      return Obj(members);
    }
  }

  /** One member at a time, in whatever order the map yields them. */
  method CopyAll(from: map<string, Value>) returns (to: map<string, Value>)
    ensures to == from
  {
    to := map[];
    var rest := from.Keys;
    while rest != {}
      invariant rest <= from.Keys && to == from - rest
      decreases rest
    {
      var name := AnyOf(rest);
      to := to[name := from[name]];
      rest := rest - {name};
    }
    assert from - {} == from;
  }

  // --- round trips -------------------------------------------------------

  /** Decoding an accepted object into a fresh value and encoding it again gives the
      same object back exactly when no known member is null. */
  lemma DecodeEncodeExactlyWhen(members: map<string, Value>)
    requires KnownOk(members, DESCRIPTION) && KnownOk(members, DISPLAY_NAME)
    ensures Members(Decoded(BLANK, members)) == members <==>
            !(DESCRIPTION in members && members[DESCRIPTION].Null?) &&
            !(DISPLAY_NAME in members && members[DISPLAY_NAME].Null?)
  {
    var back := Members(Decoded(BLANK, members));
    assert forall k :: k != DESCRIPTION && k != DISPLAY_NAME ==>
      (k in back <==> k in members) && (k in members ==> back[k] == members[k]);
    assert DESCRIPTION in back <==> DESCRIPTION in members && members[DESCRIPTION].Str?;
    assert DISPLAY_NAME in back <==> DISPLAY_NAME in members && members[DISPLAY_NAME].Str?;
    if DESCRIPTION in members && members[DESCRIPTION].Null? {
      assert DESCRIPTION !in back;
    } else if DISPLAY_NAME in members && members[DISPLAY_NAME].Null? {
      assert DISPLAY_NAME !in back;
    } else {
      assert back.Keys == members.Keys;
    }
  }

  /** A property set, encoded and decoded into a fresh value is read back exactly when
      its name is not one of the known ones, and setting it disturbs no other property. */
  lemma SetSurvivesExactlyWhen(a: Fields, name: string, value: Value)
    ensures
      var b := Decoded(BLANK, Members(WithProperty(a, name, value)));
      && (Property(b, name) == Some(value) <==> name != DESCRIPTION && name != DISPLAY_NAME)
      && (forall other :: other != name && other != DESCRIPTION && other != DISPLAY_NAME ==>
            Property(b, other) == Property(a, other))
  {
    var c := WithProperty(a, name, value);
    var m := Members(c);
    assert forall k :: k != DESCRIPTION && k != DISPLAY_NAME ==>
      (k in Extras(m) <==> k in c.extras.value) && (k in Extras(m) ==> Extras(m)[k] == c.extras.value[k]);
    assert forall k :: Property(Decoded(BLANK, m), k) == if k in Extras(m) then Some(Extras(m)[k]) else None;
  }

  /** Nil and empty additional properties are the same value. */
  function Normal(a: Fields): Fields {
    if a.extras == Some(map[]) then a.(extras := None) else a
  }

  predicate Acceptable(members: map<string, Value>) {
    KnownOk(members, DESCRIPTION) && KnownOk(members, DISPLAY_NAME)
  }

  /** Encoding a value and decoding it into a fresh one gives the same value back
      exactly when its additional properties avoid the two known names. */
  lemma EncodeDecodeExactlyWhen(a: Fields)
    ensures Acceptable(Members(a)) && Decoded(BLANK, Members(a)) == Normal(a) <==>
            (a.extras.Some? ==> DESCRIPTION !in a.extras.value && DISPLAY_NAME !in a.extras.value)
  {
    var m := Members(a);
    var extras := if a.extras.Some? then a.extras.value else map[];
    if DESCRIPTION !in extras && DISPLAY_NAME !in extras {
      assert Extras(m) == extras;
    } else if Decoded(BLANK, m) == Normal(a) {
      assert DESCRIPTION !in Extras(m) && DISPLAY_NAME !in Extras(m);
      assert extras != map[];
    }
  }
}
