/**
 * `Criteria::fromInput`: translates a flat input map (field => value, for
 * example a posted search form) into a list of query conditions and a bind
 * map, using the model's attribute data types and its optional reverse
 * column map. The input is an ordered PHP array, here a list of pairs.
 */
module Criteria {
  import opened Wrappers
  import opened Php
  import Strings

  /** `Phalcon\Db\Column::TYPE_VARCHAR`. */
  const TYPE_VARCHAR: int := 2

  /** The operator used to join the conditions when the caller gives none. */
  const DEFAULT_OPERATOR: string := "AND"

  type Input = seq<(string, Value)>

  /** What one field contributes: a condition, and possibly a bind entry under the field's name. */
  datatype Clause = Clause(condition: string, bind: Option<Value>)

  /** The parameters of the built criteria object. `conditions`/`bind` are unset when nothing matched. */
  datatype Params = Params(modelName: string, conditions: Option<string>, bind: Option<map<string, Value>>)

  /**
   * The model attribute a field stands for: the reverse column map's entry
   * when that map is a non-empty array, else the field itself. A field the
   * map lacks reads as null, which PHP uses as the array key "".
   */
  function AttributeOf(field: string, columnMap: Option<map<string, string>>): string
  {
    if columnMap.Some? && |columnMap.value| > 0 then
      (if field in columnMap.value then columnMap.value[field] else "")
    else field
  }

  /** The condition and bind entry that one input pair contributes, if any. */
  function ClauseFor(field: string, value: Value, dataTypes: map<string, int>,
                     columnMap: Option<map<string, string>>): (c: Option<Clause>)
    // a field is skipped exactly when its attribute has no type or its value is null or ''
    ensures c.None? <==> AttributeOf(field, columnMap) !in dataTypes || value == Null || value == Str("")
    // the condition names the input field, never the attribute
    ensures c.Some? ==> "[" + field + "]" <= c.value.condition
    // the NULL markers are the only values that bind nothing
    ensures c.Some? ==> (c.value.bind.None? <==> value in {Str("NULL"), Str("!NULL")})
    // an array is bound unchanged; a varchar attribute binds the value wrapped in '%'
    ensures c.Some? && value.Arr? ==> c.value.bind == Some(value)
    ensures c.Some? && !value.Arr? && c.value.bind.Some? ==>
      c.value.bind.value == (if dataTypes[AttributeOf(field, columnMap)] == TYPE_VARCHAR
                             then Str("%" + ToStr(value) + "%") else value)
  {
    var attribute := AttributeOf(field, columnMap);
    var name := "[" + field + "]";
    if attribute !in dataTypes || value == Null || value == Str("") then None
    else if value.Arr? then Some(Clause(name + " IN ({" + field + ":array})", Some(value)))
    else if value == Str("NULL") then Some(Clause(name + " IS NULL", None))
    else if value == Str("!NULL") then Some(Clause(name + " IS NOT NULL", None))
    else if dataTypes[attribute] == TYPE_VARCHAR then
      Some(Clause(name + " LIKE :" + field + ":", Some(Str("%" + ToStr(value) + "%"))))
    else Some(Clause(name + " = :" + field + ":", Some(value)))
  }

  /** The condition text for each kind of value, always naming the input field. */
  lemma ClauseShapes(field: string, value: Value, dataTypes: map<string, int>, columnMap: Option<map<string, string>>)
    requires ClauseFor(field, value, dataTypes, columnMap).Some?
    ensures var cond := ClauseFor(field, value, dataTypes, columnMap).value.condition;
      var varchar := dataTypes[AttributeOf(field, columnMap)] == TYPE_VARCHAR;
      && (value.Arr? ==> cond == "[" + field + "] IN ({" + field + ":array})")
      && (value == Str("NULL") ==> cond == "[" + field + "] IS NULL")
      && (value == Str("!NULL") ==> cond == "[" + field + "] IS NOT NULL")
      && (!value.Arr? && value !in {Str("NULL"), Str("!NULL")} && varchar ==> cond == "[" + field + "] LIKE :" + field + ":")
      && (!value.Arr? && value !in {Str("NULL"), Str("!NULL")} && !varchar ==> cond == "[" + field + "] = :" + field + ":")
  {
    var name := "[" + field + "]";
    assert name + " IN ({" + field + ":array})" == "[" + field + "] IN ({" + field + ":array})";
    assert name + " IS NULL" == "[" + field + "] IS NULL";
    assert name + " IS NOT NULL" == "[" + field + "] IS NOT NULL";
    assert name + " LIKE :" + field + ":" == "[" + field + "] LIKE :" + field + ":";
    assert name + " = :" + field + ":" == "[" + field + "] = :" + field + ":";
  }

  /** The conditions of an input, in input order (defined on the last pair, as the loop appends). */
  function Conditions(data: Input, dataTypes: map<string, int>, columnMap: Option<map<string, string>>): (cs: seq<string>)
    // every condition opens with a bracketed field name
    ensures forall k :: 0 <= k < |cs| ==> cs[k] != [] && cs[k][0] == '['
    decreases |data|
  {
    if data == [] then []
    else
      var prefix := Conditions(data[..|data| - 1], dataTypes, columnMap);
      var (field, value) := data[|data| - 1];
      match ClauseFor(field, value, dataTypes, columnMap)
      case None => prefix
      case Some(c) => prefix + [c.condition]
  }

  /** The bind map of an input: later pairs overwrite earlier ones, as `$bind[$field] = ...` does. */
  function Binds(data: Input, dataTypes: map<string, int>, columnMap: Option<map<string, string>>): (b: map<string, Value>)
    // skipped values and the NULL markers are never bound
    ensures forall f | f in b :: b[f] !in {Null, Str(""), Str("NULL"), Str("!NULL")}
    decreases |data|
  {
    if data == [] then map[]
    else
      var prefix := Binds(data[..|data| - 1], dataTypes, columnMap);
      var (field, value) := data[|data| - 1];
      var c := ClauseFor(field, value, dataTypes, columnMap);
      if c.Some? && c.value.bind.Some? then
        var v := c.value.bind.value;
        assert v.Str? && !value.Arr? && dataTypes[AttributeOf(field, columnMap)] == TYPE_VARCHAR ==> v.s[0] == '%';
        prefix[field := v]
      else prefix
  }

  /** The field names of an input, in order. */
  function Fields(data: Input): seq<string>
  {
    seq(|data|, k requires 0 <= k < |data| => data[k].0)
  }

  /** PHP arrays never repeat a key. */
  predicate DistinctFields(data: Input)
  {
    forall j, k :: 0 <= j < k < |data| ==> data[j].0 != data[k].0
  }

  /**
   * `Criteria::fromInput($di, $modelName, $data, $operator)`, with the
   * models metadata service replaced by the model's data types and reverse
   * column map. Where and bind are set only when some condition exists.
   */
  method FromInput(modelName: string, data: Input, dataTypes: map<string, int>,
                   columnMap: Option<map<string, string>>, operator: string := DEFAULT_OPERATOR)
    returns (criteria: Params)
    ensures criteria.modelName == modelName
    ensures Conditions(data, dataTypes, columnMap) == [] ==> criteria.conditions.None? && criteria.bind.None?
    ensures Conditions(data, dataTypes, columnMap) != [] ==>
      criteria.conditions == Some(Strings.Join(Conditions(data, dataTypes, columnMap), " " + operator + " "))
      && criteria.bind == Some(Binds(data, dataTypes, columnMap))
  {
    var conditions: seq<string> := [];
    var bind: map<string, Value> := map[];
    if |data| > 0 {
      var i := 0;
      while i < |data|
        invariant 0 <= i <= |data|
        invariant conditions == Conditions(data[..i], dataTypes, columnMap)
        invariant bind == Binds(data[..i], dataTypes, columnMap)
      {
        assert data[..i + 1][..i] == data[..i];
        assert data[..i + 1][i] == data[i];
        var (field, value) := data[i];
        ghost var clause := ClauseFor(field, value, dataTypes, columnMap);
        assert Conditions(data[..i + 1], dataTypes, columnMap) ==
          if clause.Some? then conditions + [clause.value.condition] else conditions;
        var attribute := AttributeOf(field, columnMap);
        var name := "[" + field + "]";
        if attribute in dataTypes {
          if value != Null && value != Str("") {
            if value.Arr? {
              conditions := conditions + [name + " IN ({" + field + ":array})"];
              bind := bind[field := value];
            } else if value == Str("NULL") || value == Str("!NULL") {
              if value == Str("!NULL") {
                conditions := conditions + [name + " IS NOT NULL"];
              } else {
                conditions := conditions + [name + " IS NULL"];
              }
            } else if dataTypes[attribute] == TYPE_VARCHAR {
              conditions := conditions + [name + " LIKE :" + field + ":"];
              bind := bind[field := Str("%" + ToStr(value) + "%")];
            } else {
              conditions := conditions + [name + " = :" + field + ":"];
              bind := bind[field := value];
            }
          }
        }
        i := i + 1;
      }
      assert data[..i] == data;
    }
    if |conditions| > 0 {
      criteria := Params(modelName, Some(Strings.Join(conditions, " " + operator + " ")), Some(bind));
    } else {
      criteria := Params(modelName, None, None);
    }
  }

  /** There are never more conditions than input pairs. */
  lemma {:induction false} ConditionsBounded(data: Input, dataTypes: map<string, int>, columnMap: Option<map<string, string>>)
    ensures |Conditions(data, dataTypes, columnMap)| <= |data|
    decreases |data|
  {
    if data != [] {
      ConditionsBounded(data[..|data| - 1], dataTypes, columnMap);
    }
  }

  /** Conditions keep input order: translating a concatenation concatenates the translations. */
  lemma {:induction false} ConditionsAppend(a: Input, b: Input, dataTypes: map<string, int>, columnMap: Option<map<string, string>>)
    ensures Conditions(a + b, dataTypes, columnMap) == Conditions(a, dataTypes, columnMap) + Conditions(b, dataTypes, columnMap)
    decreases |b|
  {
    if b == [] {
      assert a + b == a;
    } else {
      var b' := b[..|b| - 1];
      assert (a + b)[..|a + b| - 1] == a + b';
      assert (a + b)[|a + b| - 1] == b[|b| - 1];
      ConditionsAppend(a, b', dataTypes, columnMap);
    }
  }

  /** Every bind key is the name of an input field whose clause binds. */
  lemma {:induction false} BindKeysAreFields(data: Input, dataTypes: map<string, int>, columnMap: Option<map<string, string>>, f: string)
    requires f in Binds(data, dataTypes, columnMap)
    ensures exists k :: 0 <= k < |data| && data[k].0 == f
    decreases |data|
  {
    var init := data[..|data| - 1];
    if f == data[|data| - 1].0 {
    } else {
      BindKeysAreFields(init, dataTypes, columnMap, f);
      var k :| 0 <= k < |init| && init[k].0 == f;
      assert data[k].0 == f;
    }
  }

  /**
   * With distinct field names, the bind entry of a field is exactly what
   * its own clause binds, and a field whose clause binds nothing has no entry.
   */
  lemma {:induction false} BindOfField(data: Input, dataTypes: map<string, int>, columnMap: Option<map<string, string>>, k: nat)
    requires DistinctFields(data) && k < |data|
    ensures var c := ClauseFor(data[k].0, data[k].1, dataTypes, columnMap);
      if c.Some? && c.value.bind.Some? then
        data[k].0 in Binds(data, dataTypes, columnMap) && Binds(data, dataTypes, columnMap)[data[k].0] == c.value.bind.value
      else data[k].0 !in Binds(data, dataTypes, columnMap)
    decreases |data|
  {
    var init := data[..|data| - 1];
    if k < |data| - 1 {
      assert DistinctFields(init);
      BindOfField(init, dataTypes, columnMap, k);
      assert data[k].0 != data[|data| - 1].0;
    } else if data[k].0 in Binds(init, dataTypes, columnMap) {
      BindKeysAreFields(init, dataTypes, columnMap, data[k].0);
    }
  }

  /** A single matching field yields exactly its own condition, with no operator. */
  lemma SingleConditionUnjoined(modelName: string, field: string, value: Value, dataTypes: map<string, int>,
                                columnMap: Option<map<string, string>>, operator: string)
    requires ClauseFor(field, value, dataTypes, columnMap).Some?
    ensures Conditions([(field, value)], dataTypes, columnMap) == [ClauseFor(field, value, dataTypes, columnMap).value.condition]
    ensures Strings.Join(Conditions([(field, value)], dataTypes, columnMap), " " + operator + " ")
      == ClauseFor(field, value, dataTypes, columnMap).value.condition
  {
    assert [(field, value)][..0] == [];
  }
}
