/** The part of JSON Schema that Gemini accepts, cut out of any schema (source/gemini_system.cpp). */
module GeminiSchema {
  import opened Sequences

  datatype Json =
    | Null | Bool(b: bool) | Number(digits: string) | Str(s: string)
    | Arr(items: seq<Json>) | Obj(fields: map<string, Json>)

  const ALLOWED: set<string> :=
    {"type", "format", "description", "nullable", "enum", "items", "properties", "required",
     "minimum", "maximum", "minItems", "maxItems"}

  predicate IsTypeName(t: Json) { t.Str? && t.s != "null" }

  /** The first type in a list of types that is not "null". */
  function FirstType(types: seq<Json>): (t: seq<Json>)
    ensures |t| <= 1 && (t != [] ==> IsTypeName(t[0]))
  {
    if types == [] then [] else if IsTypeName(types[0]) then [types[0]] else FirstType(types[1..])
  }

  function Strings(values: seq<Json>, dump: Json -> string): seq<Json> {
    if values == [] then []
    else Strings(values[..|values| - 1], dump)
         + [if values[|values| - 1].Str? then values[|values| - 1] else Str(dump(values[|values| - 1]))]
  }

  function Known(names: seq<Json>, fields: map<string, Json>): seq<Json> {
    if names == [] then []
    else Known(names[..|names| - 1], fields) + if HasProperty(fields, names[|names| - 1]) then [names[|names| - 1]] else []
  }

  /** The name is one of the object's properties. */
  predicate HasProperty(fields: map<string, Json>, name: Json) {
    name.Str? && "properties" in fields && fields["properties"].Obj? && name.s in fields["properties"].fields
  }

  /** Names in `required` that are no properties are dropped, and the whole list if none is left. */
  function CheckRequired(fields: map<string, Json>): map<string, Json> {
    if "required" in fields && fields["required"].Arr? then
      var kept := Known(fields["required"].items, fields);
      if kept == [] then fields - {"required"} else fields["required" := Arr(kept)]
    else fields
  }

  predicate ListsTypes(fields: map<string, Json>) {
    "type" in fields && fields["type"].Arr?
  }

  /** A list of types becomes its first real one, and allows null. */
  function OneType(fields: map<string, Json>): map<string, Json> {
    if ListsTypes(fields) then
      var t := FirstType(fields["type"].items);
      (if t == [] then fields - {"type"} else fields["type" := t[0]])["nullable" := Bool(true)]
    else fields
  }

  function Schema(input: Json, dump: Json -> string): Json
    decreases input, 2
  {
    match input
    case Obj(fields) => Obj(CheckRequired(OneType(Copied(fields, dump))))
    case _ => input
  }

  /** The allowed keys, with what they hold converted. */
  function Copied(fields: map<string, Json>, dump: Json -> string): map<string, Json>
    decreases Obj(fields), 1
  {
    map k | k in fields && k in ALLOWED :: CopiedValue(fields, k, dump)
  }

  function CopiedValue(fields: map<string, Json>, k: string, dump: Json -> string): Json
    requires k in fields
    decreases Obj(fields), 0
  {
    if k == "properties" && fields[k].Obj? then Obj(map p | p in fields[k].fields :: Schema(fields[k].fields[p], dump))
    else if k == "items" then Schema(fields[k], dump)
    else if k == "enum" && fields[k].Arr? then Arr(Strings(fields[k].items, dump))
    else fields[k]
  }

  // ---- What Gemini gets ----

  ghost predicate AllStrings(values: seq<Json>) {
    forall k :: 0 <= k < |values| ==> values[k].Str?
  }

  ghost predicate RequiredAreKnown(fields: map<string, Json>) {
    "required" in fields && fields["required"].Arr? ==>
      var names := fields["required"].items;
      names != [] && forall k :: 0 <= k < |names| ==> HasProperty(fields, names[k])
  }

  /** A schema of the accepted shape, all the way down to the lists under `items`, which the conversion does not
      enter. */
  ghost predicate Settled(j: Json)
    decreases j, 1
  {
    j.Obj? ==> PartsSettled(j) && !ListsTypes(j.fields) && RequiredAreKnown(j.fields)
  }

  ghost predicate PartsSettled(j: Json)
    requires j.Obj?
    decreases j, 0
  {
    && (forall k :: k in j.fields ==> k in ALLOWED)
    && (forall p :: "properties" in j.fields && j.fields["properties"].Obj? && p in j.fields["properties"].fields ==>
          Settled(j.fields["properties"].fields[p]))
    && ("items" in j.fields ==> Settled(j.fields["items"]))
    && ("enum" in j.fields && j.fields["enum"].Arr? ==> AllStrings(j.fields["enum"].items))
  }

  lemma {:induction false} StringsAre(values: seq<Json>, dump: Json -> string)
    ensures AllStrings(Strings(values, dump))
    ensures AllStrings(values) ==> Strings(values, dump) == values
  {
    if values != [] {
      StringsAre(values[..|values| - 1], dump);
      SnocSplit(values);
    }
  }

  lemma {:induction false} KnownAre(names: seq<Json>, fields: map<string, Json>)
    ensures forall k :: 0 <= k < |Known(names, fields)| ==> HasProperty(fields, Known(names, fields)[k])
    ensures (forall k :: 0 <= k < |names| ==> HasProperty(fields, names[k])) ==> Known(names, fields) == names
  {
    if names != [] {
      hide HasProperty;
      KnownAre(names[..|names| - 1], fields);
      SnocSplit(names);
    }
  }

  /** Names are dropped only if they are no property. */
  lemma {:induction false} KnownKeeps(names: seq<Json>, fields: map<string, Json>, name: Json)
    ensures name in Known(names, fields) <==> name in names && HasProperty(fields, name)
  {
    if names != [] {
      hide HasProperty;
      KnownKeeps(names[..|names| - 1], fields, name);
      SnocSplit(names);
    }
  }

  lemma {:induction false} SameProperties(fields: map<string, Json>, after: map<string, Json>, names: seq<Json>)
    requires "properties" in fields <==> "properties" in after
    requires "properties" in fields ==> fields["properties"] == after["properties"]
    ensures Known(names, fields) == Known(names, after)
    ensures forall name :: HasProperty(fields, name) == HasProperty(after, name)
  {
    if names != [] { SameProperties(fields, after, names[..|names| - 1]); }
  }

  lemma {:induction false} CheckedIsKnown(fields: map<string, Json>)
    ensures RequiredAreKnown(CheckRequired(fields))
    ensures forall k :: k != "required" ==> (k in CheckRequired(fields) <==> k in fields)
    ensures forall k :: k != "required" && k in fields ==> CheckRequired(fields)[k] == fields[k]
    ensures "required" in CheckRequired(fields) ==> "required" in fields
    ensures RequiredAreKnown(fields) ==> CheckRequired(fields) == fields
  {
    if "required" in fields && fields["required"].Arr? {
      KnownAre(fields["required"].items, fields);
      SameProperties(fields, CheckRequired(fields), []);
      hide HasProperty, Known;
    }
  }

  lemma {:induction false} SchemaIs(fields: map<string, Json>, dump: Json -> string)
    ensures Schema(Obj(fields), dump) == Obj(CheckRequired(OneType(Copied(fields, dump))))
  {
    hide CheckRequired, OneType, Strings;
  }

  lemma {:induction false} OneTypeIs(fields: map<string, Json>)
    requires forall k :: k in fields ==> k in ALLOWED
    ensures !ListsTypes(OneType(fields)) && forall k :: k in OneType(fields) ==> k in ALLOWED
    ensures forall k :: k != "type" && k != "nullable" ==> (k in OneType(fields) <==> k in fields)
    ensures forall k :: k != "type" && k != "nullable" && k in fields ==> OneType(fields)[k] == fields[k]
    ensures !ListsTypes(fields) ==> OneType(fields) == fields
  {
    hide FirstType;
  }

  lemma {:induction false} CopiedParts(fields: map<string, Json>, dump: Json -> string)
    requires "properties" in fields && fields["properties"].Obj? ==>
               forall p :: p in fields["properties"].fields ==> Settled(Schema(fields["properties"].fields[p], dump))
    requires "items" in fields ==> Settled(Schema(fields["items"], dump))
    ensures PartsSettled(Obj(Copied(fields, dump)))
  {
    hide Schema, Strings, Settled;
    if "enum" in fields && fields["enum"].Arr? { StringsAre(fields["enum"].items, dump); }
  }

  lemma {:induction false} SameParts(fields: map<string, Json>, after: map<string, Json>)
    requires PartsSettled(Obj(fields)) && forall k :: k in after ==> k in ALLOWED
    requires forall k :: (k == "properties" || k == "items" || k == "enum") && k in after ==> k in fields && after[k] == fields[k]
    ensures PartsSettled(Obj(after))
  {
    hide Settled, AllStrings;
  }

  lemma {:induction false} TidiedParts(copied: map<string, Json>)
    requires PartsSettled(Obj(copied))
    ensures Settled(Obj(CheckRequired(OneType(copied))))
  {
    OneTypeIs(copied);
    CheckedIsKnown(OneType(copied));
    SameParts(copied, CheckRequired(OneType(copied)));
    hide OneType, CheckRequired, RequiredAreKnown, PartsSettled;
  }

  /** Whatever goes in, what comes out uses only accepted keys at every level, has one type where it has a
      type, only strings in its enums, and requires only properties it has, as far as no list hides it. */
  lemma {:induction false} SchemaIsSettled(input: Json, dump: Json -> string)
    ensures Settled(Schema(input, dump))
  {
    if input.Obj? {
      hide Schema, Copied, PartsSettled;
      var fields := input.fields;
      SchemaIs(fields, dump);
      if "properties" in fields && fields["properties"].Obj? {
        forall p | p in fields["properties"].fields ensures Settled(Schema(fields["properties"].fields[p], dump)) {
          SchemaIsSettled(fields["properties"].fields[p], dump);
        }
      }
      if "items" in fields { SchemaIsSettled(fields["items"], dump); }
      CopiedParts(fields, dump);
      TidiedParts(Copied(fields, dump));
    }
  }

  lemma {:induction false} CopiedIsSame(fields: map<string, Json>, dump: Json -> string)
    requires Settled(Obj(fields))
    requires "properties" in fields && fields["properties"].Obj? ==>
               forall p :: p in fields["properties"].fields ==> Schema(fields["properties"].fields[p], dump) == fields["properties"].fields[p]
    requires "items" in fields ==> Schema(fields["items"], dump) == fields["items"]
    ensures Copied(fields, dump) == fields
  {
    hide Schema, RequiredAreKnown;
    if "enum" in fields && fields["enum"].Arr? { StringsAre(fields["enum"].items, dump); }
    forall k | k in fields ensures Copied(fields, dump)[k] == fields[k] {
      if k == "properties" && fields[k].Obj? {
        assert (map p | p in fields[k].fields :: Schema(fields[k].fields[p], dump)) == fields[k].fields;
      }
    }
  }

  /** A schema of this shape is left as it is. */
  lemma {:induction false} SettledIsKept(j: Json, dump: Json -> string)
    requires Settled(j)
    ensures Schema(j, dump) == j
  {
    if j.Obj? {
      var fields := j.fields;
      if "properties" in fields && fields["properties"].Obj? {
        forall p | p in fields["properties"].fields
          ensures Schema(fields["properties"].fields[p], dump) == fields["properties"].fields[p]
        {
          SettledIsKept(fields["properties"].fields[p], dump);
        }
      }
      if "items" in fields { SettledIsKept(fields["items"], dump); }
      CopiedIsSame(fields, dump);
      SchemaIs(fields, dump);
      OneTypeIs(fields);
      CheckedIsKnown(fields);
      hide Schema, Copied, OneType, CheckRequired, RequiredAreKnown;
    }
  }

  /** Exactly the schemas of this shape are left as they are. */
  lemma {:induction false} LeftAlone(j: Json, dump: Json -> string)
    ensures Schema(j, dump) == j <==> Settled(j)
  {
    hide Schema, Settled;
    SchemaIsSettled(j, dump);
    if Settled(j) { SettledIsKept(j, dump); }
  }

  /** Converting twice is converting once. */
  lemma {:induction false} SchemaIsIdempotent(input: Json, dump: Json -> string)
    ensures Schema(Schema(input, dump), dump) == Schema(input, dump)
  {
    SchemaIsSettled(input, dump);
    SettledIsKept(Schema(input, dump), dump);
  }

  /** No property is lost, and each is converted in its place; so is what `items` holds. */
  lemma {:induction false} PropertiesAreKept(fields: map<string, Json>, dump: Json -> string)
    ensures var out := Schema(Obj(fields), dump);
            && out.Obj? && ("properties" in out.fields <==> "properties" in fields)
            && ("properties" in fields ==> (out.fields["properties"].Obj? <==> fields["properties"].Obj?))
            && ("properties" in fields && fields["properties"].Obj? ==>
                  && out.fields["properties"].fields.Keys == fields["properties"].fields.Keys
                  && forall p :: p in fields["properties"].fields ==>
                       out.fields["properties"].fields[p] == Schema(fields["properties"].fields[p], dump))
            && ("items" in out.fields <==> "items" in fields)
            && ("items" in fields ==> out.fields["items"] == Schema(fields["items"], dump))
  {
    SchemaIs(fields, dump);
    OneTypeIs(Copied(fields, dump));
    CheckedIsKnown(OneType(Copied(fields, dump)));
    hide Schema, OneType, CheckRequired, RequiredAreKnown;
  }

  predicate GeminiKnows(key: string) {
    || key == "type" || key == "format" || key == "description" || key == "nullable" || key == "enum"
    || key == "items" || key == "properties" || key == "required"
    || key == "minimum" || key == "maximum" || key == "minItems" || key == "maxItems"
  }

  /** The keys that are passed on as they are. */
  predicate IsPlain(key: string) {
    || key == "format" || key == "description"
    || key == "minimum" || key == "maximum" || key == "minItems" || key == "maxItems"
  }

  /** The type of a list of types is its first one that is a string and not "null", if there is one. */
  ghost predicate TypeOf(types: seq<Json>, out: map<string, Json>) {
    if exists k :: 0 <= k < |types| && IsTypeName(types[k]) then
      "type" in out
      && exists k :: 0 <= k < |types| && out["type"] == types[k] && IsTypeName(types[k])
                     && forall j :: 0 <= j < k ==> !IsTypeName(types[j])
    else "type" !in out
  }

  /** Values of an enum become strings, one by one. */
  ghost predicate EnumOf(values: seq<Json>, out: seq<Json>, dump: Json -> string) {
    |out| == |values|
    && forall k :: 0 <= k < |values| ==> out[k] == if values[k].Str? then values[k] else Str(dump(values[k]))
  }

  lemma {:induction false} FirstTypeIs(types: seq<Json>, out: map<string, Json>)
    requires FirstType(types) == [] ==> "type" !in out
    requires FirstType(types) != [] ==> "type" in out && out["type"] == FirstType(types)[0]
    ensures TypeOf(types, out)
  {
    var k := FirstTypeAt(types);
    if k < |types| { assert out["type"] == types[k]; }
  }

  lemma {:induction false} FirstTypeAt(types: seq<Json>) returns (k: nat)
    ensures k <= |types| && forall j :: 0 <= j < k ==> !IsTypeName(types[j])
    ensures if k < |types| then IsTypeName(types[k]) && FirstType(types) == [types[k]] else FirstType(types) == []
  {
    if types == [] || IsTypeName(types[0]) {
      k := 0;
    } else {
      k := FirstTypeAt(types[1..]);
      k := k + 1;
    }
  }

  lemma {:induction false} StringsAt(values: seq<Json>, dump: Json -> string)
    ensures EnumOf(values, Strings(values, dump), dump)
  {
    if values != [] { StringsAt(values[..|values| - 1], dump); }
  }

  /** What becomes of each key of a schema: an accepted key with a plain value stays as it is, an enum becomes
      strings, a list of types its first real one and nullable, and no other key is there. */
  lemma {:induction false} WhatIsKept(fields: map<string, Json>, dump: Json -> string)
    ensures var out := Schema(Obj(fields), dump);
            && out.Obj?
            && (forall key :: key in out.fields ==> GeminiKnows(key))
            && (forall key :: IsPlain(key) ==> (key in out.fields <==> key in fields))
            && (forall key :: IsPlain(key) && key in fields ==> out.fields[key] == fields[key])
            && ("enum" in out.fields <==> "enum" in fields)
            && ("enum" in fields && !fields["enum"].Arr? ==> out.fields["enum"] == fields["enum"])
            && ("enum" in fields && fields["enum"].Arr? ==>
                  out.fields["enum"].Arr? && EnumOf(fields["enum"].items, out.fields["enum"].items, dump))
            && (if ListsTypes(fields) then
                  TypeOf(fields["type"].items, out.fields) && "nullable" in out.fields && out.fields["nullable"] == Bool(true)
                else
                  forall key :: key == "type" || key == "nullable" ==>
                    (key in out.fields <==> key in fields) && (key in fields ==> out.fields[key] == fields[key]))
  {
    hide Schema, Strings, CheckRequired, FirstType, TypeOf, EnumOf, Copied, OneType, GeminiKnows, IsPlain, ListsTypes;
    SchemaIs(fields, dump);
    CopiedKeeps(fields, dump);
    TidyingKeeps(Copied(fields, dump));
    SameLists(fields, Copied(fields, dump));
    if "enum" in fields && fields["enum"].Arr? { StringsAt(fields["enum"].items, dump); }
    PlainKeys();
  }

  lemma {:induction false} PlainKeys()
    ensures forall key :: IsPlain(key) ==> key != "enum" && key != "type" && key != "nullable"
    ensures forall key :: key in ALLOWED ==> GeminiKnows(key)
  {
  }

  lemma {:induction false} SameLists(fields: map<string, Json>, copied: map<string, Json>)
    requires ("type" in copied <==> "type" in fields) && ("type" in fields ==> copied["type"] == fields["type"])
    ensures ListsTypes(copied) == ListsTypes(fields)
    ensures ListsTypes(fields) ==> "type" in fields && "type" in copied && copied["type"] == fields["type"]
  {
  }

  lemma {:induction false} TidyingKeeps(copied: map<string, Json>)
    requires forall key :: key in copied ==> key in ALLOWED
    ensures var after := CheckRequired(OneType(copied));
            && (forall key :: key in after ==> key in ALLOWED)
            && (forall key :: (IsPlain(key) || key == "enum") ==> (key in after <==> key in copied))
            && (forall key :: (IsPlain(key) || key == "enum") && key in copied ==> after[key] == copied[key])
            && (if ListsTypes(copied) then
                  TypeOf(copied["type"].items, after) && "nullable" in after && after["nullable"] == Bool(true)
                else
                  forall key :: key == "type" || key == "nullable" ==>
                    (key in after <==> key in copied) && (key in copied ==> after[key] == copied[key]))
  {
    hide CheckRequired, OneType, TypeOf, RequiredAreKnown;
    OneTypeIs(copied);
    CheckedIsKnown(OneType(copied));
    if ListsTypes(copied) { OneTypeLists(copied, CheckRequired(OneType(copied))); }
  }

  lemma {:induction false} SameNames(fields: map<string, Json>, after: map<string, Json>)
    requires "properties" in fields <==> "properties" in after
    requires "properties" in fields ==> (fields["properties"].Obj? <==> after["properties"].Obj?)
    requires "properties" in fields && fields["properties"].Obj? ==>
               fields["properties"].fields.Keys == after["properties"].fields.Keys
    ensures forall name :: HasProperty(fields, name) == HasProperty(after, name)
  {
  }

  /** A list of required names keeps exactly those that are properties, and goes if none is left. */
  lemma {:induction false} RequiredAreKept(fields: map<string, Json>, dump: Json -> string, name: Json)
    requires "required" in fields && fields["required"].Arr?
    ensures var out := Schema(Obj(fields), dump);
            && out.Obj?
            && (if "required" in out.fields then out.fields["required"].Arr? && out.fields["required"].items != [] else true)
            && (("required" in out.fields && name in out.fields["required"].items) <==>
                name in fields["required"].items && HasProperty(fields, name))
  {
    hide Schema, HasProperty, Known;
    var copied := Copied(fields, dump);
    var typed := OneType(copied);
    SchemaIs(fields, dump);
    RequiredIsCopied(fields, dump);
    KnownKeeps(fields["required"].items, typed, name);
    hide Copied, OneType;
  }

  lemma {:induction false} RequiredIsCopied(fields: map<string, Json>, dump: Json -> string)
    requires "required" in fields && fields["required"].Arr?
    ensures var typed := OneType(Copied(fields, dump));
            && "required" in typed && typed["required"] == fields["required"]
            && forall name :: HasProperty(fields, name) == HasProperty(typed, name)
  {
    hide Schema, Copied, OneType, HasProperty;
    CopiedNames(fields, dump);
    OneTypeIs(Copied(fields, dump));
    SameNames(fields, OneType(Copied(fields, dump)));
  }

  lemma {:induction false} CopiedNames(fields: map<string, Json>, dump: Json -> string)
    ensures var copied := Copied(fields, dump);
            && (forall key :: key in copied ==> key in ALLOWED)
            && ("required" in copied <==> "required" in fields)
            && ("required" in fields ==> copied["required"] == fields["required"])
            && ("properties" in copied <==> "properties" in fields)
            && ("properties" in fields ==> (fields["properties"].Obj? <==> copied["properties"].Obj?))
            && ("properties" in fields && fields["properties"].Obj? ==>
                  fields["properties"].fields.Keys == copied["properties"].fields.Keys)
  {
    hide Schema, Strings;
  }

  lemma {:induction false} CopiedKeeps(fields: map<string, Json>, dump: Json -> string)
    ensures var copied := Copied(fields, dump);
            && (forall key :: key in copied ==> key in ALLOWED)
            && (forall key :: IsPlain(key) || key == "type" || key == "nullable" ==>
                  (key in copied <==> key in fields) && (key in fields ==> copied[key] == fields[key]))
            && ("enum" in copied <==> "enum" in fields)
            && ("enum" in fields ==>
                  copied["enum"] == if fields["enum"].Arr? then Arr(Strings(fields["enum"].items, dump)) else fields["enum"])
  {
    hide Schema, Strings;
  }

  lemma {:induction false} OneTypeLists(fields: map<string, Json>, after: map<string, Json>)
    requires ListsTypes(fields)
    requires forall key :: key == "type" || key == "nullable" ==>
               (key in after <==> key in OneType(fields)) && (key in after ==> after[key] == OneType(fields)[key])
    ensures TypeOf(fields["type"].items, after) && "nullable" in after && after["nullable"] == Bool(true)
  {
    hide FirstType, TypeOf;
    FirstTypeIs(fields["type"].items, after);
  }

  /** What Gemini takes: the accepted shape at every level, also of the schemas in a list under `items`. */
  ghost predicate Accepted(j: Json)
    decreases j, 1
  {
    match j
    case Arr(items) => forall k :: 0 <= k < |items| ==> Accepted(items[k])
    case Obj(fields) => PartsAccepted(j) && !ListsTypes(fields) && RequiredAreKnown(fields)
    case _ => true
  }

  ghost predicate PartsAccepted(j: Json)
    requires j.Obj?
    decreases j, 0
  {
    && (forall k :: k in j.fields ==> k in ALLOWED)
    && (forall p :: "properties" in j.fields && j.fields["properties"].Obj? && p in j.fields["properties"].fields ==>
          Accepted(j.fields["properties"].fields[p]))
    && ("items" in j.fields ==> Accepted(j.fields["items"]))
    && ("enum" in j.fields && j.fields["enum"].Arr? ==> AllStrings(j.fields["enum"].items))
  }

  /** No list that is reached holds a schema that is not accepted as it stands. */
  ghost predicate ListsAccepted(j: Json) {
    match j
    case Arr(_) => Accepted(j)
    case Obj(fields) =>
      && (forall p :: "properties" in fields && fields["properties"].Obj? && p in fields["properties"].fields ==>
            ListsAccepted(fields["properties"].fields[p]))
      && ("items" in fields ==> ListsAccepted(fields["items"]))
    case _ => true
  }

  lemma {:induction false} AcceptedIs(j: Json)
    ensures Accepted(j) <==> Settled(j) && ListsAccepted(j)
  {
    if j.Obj? {
      var fields := j.fields;
      if "properties" in fields && fields["properties"].Obj? {
        forall p | p in fields["properties"].fields
          ensures var q := fields["properties"].fields[p]; Accepted(q) <==> Settled(q) && ListsAccepted(q)
        {
          AcceptedIs(fields["properties"].fields[p]);
        }
      }
      if "items" in fields { AcceptedIs(fields["items"]); }
      hide RequiredAreKnown, AllStrings, ListsTypes;
    }
  }

  lemma {:induction false} ListsAreKept(input: Json, dump: Json -> string)
    ensures ListsAccepted(Schema(input, dump)) <==> ListsAccepted(input)
  {
    if input.Obj? {
      hide Schema, Accepted;
      var fields := input.fields;
      PropertiesAreKept(fields, dump);
      if "properties" in fields && fields["properties"].Obj? {
        forall p | p in fields["properties"].fields
          ensures ListsAccepted(Schema(fields["properties"].fields[p], dump)) <==> ListsAccepted(fields["properties"].fields[p])
        {
          ListsAreKept(fields["properties"].fields[p], dump);
        }
      }
      if "items" in fields { ListsAreKept(fields["items"], dump); }
    }
  }

  /** What comes out is accepted exactly if no list that is reached holds a schema that is not. */
  lemma {:induction false} SchemaIsAccepted(input: Json, dump: Json -> string)
    ensures Accepted(Schema(input, dump)) <==> ListsAccepted(input)
  {
    hide Schema, Accepted, Settled, ListsAccepted;
    SchemaIsSettled(input, dump);
    AcceptedIs(Schema(input, dump));
    ListsAreKept(input, dump);
  }

  /** A list of schemas under `items` is passed on as it came, with a key Gemini refuses. */
  lemma {:induction false} ListIsNotConverted(dump: Json -> string)
    ensures var input := Obj(map["items" := Arr([Obj(map["$schema" := Str("x")])])]);
            Schema(input, dump) == input && !Accepted(input)
  {
    var inner := Obj(map["$schema" := Str("x")]);
    var input := Obj(map["items" := Arr([inner])]);
    assert "$schema" in inner.fields && "$schema" !in ALLOWED;
    assert !PartsAccepted(inner) && !Accepted(inner);
    assert !Accepted(Arr([inner])) by { assert Arr([inner]).items[0] == inner; }
    assert "items" in input.fields && !PartsAccepted(input);
    assert Settled(Arr([inner])) && input.fields["items"] == Arr([inner]);
    assert PartsSettled(input) && !ListsTypes(input.fields) && RequiredAreKnown(input.fields);
    SettledIsKept(input, dump);
  }

  // ---- The program's loops ----

  /** The keys of an object in the order they are visited: each once, and sorted as far as it matters. */
  ghost predicate Visits(keys: seq<string>, fields: map<string, Json>) {
    && (forall i :: 0 <= i < |keys| ==> keys[i] in fields)
    && (forall k :: k in fields ==> k in keys)
    && (forall i, j :: 0 <= i < j < |keys| ==> keys[i] != keys[j])
    && (forall i, j :: 0 <= i < |keys| && 0 <= j < |keys| && keys[i] == "nullable" && keys[j] == "type" ==> i < j)
  }

  type Order = map<string, Json> -> seq<string>

  ghost function Upto(fields: map<string, Json>, keys: seq<string>, n: nat): map<string, Json>
    requires n <= |keys|
  {
    map k | k in fields && k in keys[..n] :: fields[k]
  }

  lemma {:induction false} UptoNext(fields: map<string, Json>, keys: seq<string>, n: nat)
    requires n < |keys| && Visits(keys, fields)
    ensures Upto(fields, keys, n + 1) == Upto(fields, keys, n)[keys[n] := fields[keys[n]]]
    ensures keys[n] !in Upto(fields, keys, n)
    ensures keys[n] == "nullable" ==> "type" !in Upto(fields, keys, n)
  {
    assert keys[..n + 1] == keys[..n] + [keys[n]];
  }

  lemma {:induction false} SameValue(a: map<string, Json>, b: map<string, Json>, k: string, dump: Json -> string)
    requires k in a && k in b && a[k] == b[k]
    ensures CopiedValue(a, k, dump) == CopiedValue(b, k, dump)
  {
    hide Schema, Strings;
  }

  lemma {:induction false} CopiedNext(part: map<string, Json>, fields: map<string, Json>, k: string,
      dump: Json -> string)
    requires k in fields && k !in part
    ensures Copied(part[k := fields[k]], dump)
            == if k in ALLOWED then Copied(part, dump)[k := CopiedValue(fields, k, dump)] else Copied(part, dump)
  {
    hide CopiedValue;
    var more := part[k := fields[k]];
    forall other | other in more
      ensures CopiedValue(more, other, dump) == CopiedValue(if other == k then fields else part, other, dump)
    {
      SameValue(more, if other == k then fields else part, other, dump);
    }
  }

  lemma {:induction false} OneTypeNext(copied: map<string, Json>, k: string, value: Json)
    requires k !in copied && (k == "nullable" ==> "type" !in copied)
    ensures k != "type" || !value.Arr? ==> OneType(copied[k := value]) == OneType(copied)[k := value]
    ensures k == "type" && value.Arr? ==>
              (OneType(copied) == copied
               && OneType(copied[k := value])
                  == (if FirstType(value.items) == [] then copied else copied["type" := FirstType(value.items)[0]])["nullable" := Bool(true)])
  {
    hide FirstType;
    if k == "type" && value.Arr? && FirstType(value.items) == [] {
      assert copied[k := value] - {"type"} == copied;
    }
  }

  method FindType(types: seq<Json>) returns (t: seq<Json>)
    ensures t == FirstType(types)
  {
    for i := 0 to |types|
      invariant FirstType(types[i..]) == FirstType(types)
    {
      assert types[i..][1..] == types[i + 1..];
      if types[i].Str? && types[i].s != "null" { return [types[i]]; }
    }
    return [];
  }

  method MakeStrings(values: seq<Json>, dump: Json -> string) returns (strings: seq<Json>)
    ensures strings == Strings(values, dump)
  {
    strings := [];
    for i := 0 to |values|
      invariant strings == Strings(values[..i], dump)
    {
      assert values[..i + 1][..i] == values[..i];
      strings := strings + [if values[i].Str? then values[i] else Str(dump(values[i]))];
    }
    assert values[..|values|] == values;
  }

  method KeepKnown(fields: map<string, Json>) returns (out: map<string, Json>)
    ensures out == CheckRequired(fields)
  {
    out := fields;
    if "required" in fields && fields["required"].Arr? {
      var names := fields["required"].items;
      var kept := [];
      for i := 0 to |names|
        invariant kept == Known(names[..i], fields)
      {
        assert names[..i + 1][..i] == names[..i];
        if HasProperty(fields, names[i]) { kept := kept + [names[i]]; }
      }
      assert names[..|names|] == names;
      out := if kept == [] then fields - {"required"} else fields["required" := Arr(kept)];
    }
  }

  /** What one more key does to what is built so far. */
  lemma {:induction false} NextKey(fields: map<string, Json>, keys: seq<string>, i: nat, dump: Json -> string)
    requires i < |keys| && Visits(keys, fields)
    ensures keys[i] in fields && fields[keys[i]] < Obj(fields)
    ensures var key, before := keys[i], OneType(Copied(Upto(fields, keys, i), dump));
            var value := CopiedValue(fields, key, dump);
            OneType(Copied(Upto(fields, keys, i + 1), dump))
            == if key !in ALLOWED then before
               else if key == "type" && value.Arr? then
                 (if FirstType(value.items) == [] then before else before["type" := FirstType(value.items)[0]])
                 ["nullable" := Bool(true)]
               else before[key := value]
  {
    hide Schema, Visits, Copied, OneType, FirstType, CopiedValue, Upto;
    var part, key := Upto(fields, keys, i), keys[i];
    KeyIsThere(fields, keys, i);
    UptoNext(fields, keys, i);
    CopiedNext(part, fields, key, dump);
    if key in ALLOWED {
      NotCopiedYet(part, key, dump);
      OneTypeNext(Copied(part, dump), key, CopiedValue(fields, key, dump));
    }
  }

  method ConvertSchema(input: Json, dump: Json -> string, order: Order) returns (out: Json)
    requires forall fields :: Visits(order(fields), fields)
    ensures out == Schema(input, dump)
    decreases input, 1
  {
    if !input.Obj? { return input; }
    hide Schema, Visits, Copied, OneType, CheckRequired, FirstType, CopiedValue, Upto;
    var fields := input.fields;
    SchemaIs(fields, dump);
    var keys := order(fields);
    var result: map<string, Json> := map[];
    UptoEnds(fields, keys, dump);
    for i := 0 to |keys|
      invariant result == OneType(Copied(Upto(fields, keys, i), dump))
    {
      var key := keys[i];
      NextKey(fields, keys, i, dump);
      if key in ALLOWED {
        var value := ConvertValue(input, key, dump, order);
        if key == "type" && value.Arr? {
          var t := FindType(value.items);
          result := (if t == [] then result else result["type" := t[0]])["nullable" := Bool(true)];
        } else {
          result := result[key := value];
        }
      }
    }
    var tidied := KeepKnown(result);
    out := Obj(tidied);
  }

  method ConvertValue(input: Json, key: string, dump: Json -> string, order: Order) returns (value: Json)
    requires input.Obj? && key in input.fields
    requires forall fields :: Visits(order(fields), fields)
    ensures value == CopiedValue(input.fields, key, dump)
    decreases input, 0
  {
    hide Schema, Strings;
    value := input.fields[key];
    if key == "properties" && value.Obj? {
      var props := ConvertProperties(value, dump, order);
      value := Obj(props);
    } else if key == "items" {
      value := ConvertSchema(value, dump, order);
    } else if key == "enum" && value.Arr? {
      var strings := MakeStrings(value.items, dump);
      value := Arr(strings);
    }
  }

  method ConvertProperties(input: Json, dump: Json -> string, order: Order) returns (props: map<string, Json>)
    requires input.Obj?
    requires forall fields :: Visits(order(fields), fields)
    ensures props == map p | p in input.fields :: Schema(input.fields[p], dump)
    decreases input, 2
  {
    hide Schema;
    var fields := input.fields;
    var keys := order(fields);
    props := map[];
    for i := 0 to |keys|
      invariant props.Keys == set k | k in keys[..i]
      invariant forall p :: p in props ==> p in fields && props[p] == Schema(fields[p], dump)
    {
      assert keys[..i + 1] == keys[..i] + [keys[i]];
      KeyIsThere(fields, keys, i);
      var converted := ConvertSchema(fields[keys[i]], dump, order);
      props := props[keys[i] := converted];
    }
    assert keys[..|keys|] == keys;
    assert Visits(keys, fields);
  }

  lemma {:induction false} UptoEnds(fields: map<string, Json>, keys: seq<string>, dump: Json -> string)
    requires Visits(keys, fields)
    ensures Upto(fields, keys, |keys|) == fields
    ensures OneType(Copied(Upto(fields, keys, 0), dump)) == map[]
  {
    hide Schema;
    assert keys[..|keys|] == keys;
    assert Upto(fields, keys, 0) == map[];
    assert Copied(map[], dump) == map[];
  }

  lemma {:induction false} KeyIsThere(fields: map<string, Json>, keys: seq<string>, i: nat)
    requires Visits(keys, fields) && i < |keys|
    ensures keys[i] in fields && fields[keys[i]] < Obj(fields)
  {
  }

  lemma {:induction false} NotCopiedYet(part: map<string, Json>, k: string, dump: Json -> string)
    requires k !in part && (k == "nullable" ==> "type" !in part)
    ensures k !in Copied(part, dump) && (k == "nullable" ==> "type" !in Copied(part, dump))
  {
    hide Schema;
  }
}
