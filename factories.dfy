/** The two class factories of typed/factories.py: `List(t)` and `Dict(k, v)`
    fix the types of the generic TypedList and TypedDict through `factory`. */
module Factories {
  import opened PyBase
  import opened Typed

  /** `List(item_type)`. */
  function List(t: TypeArg): Result<map<string, PyType>>
  {
    Factory(TypedListClass, MapGiven(map["item_type" := t]), map[])
  }

  /** `Dict(key_type, item_type)`. */
  function Dict(k: TypeArg, v: TypeArg): Result<map<string, PyType>>
  {
    Factory(TypedDictClass, MapGiven(map["key_type" := k, "item_type" := v]), map[])
  }

  /** `List(t)` fixes the item type to `t`, and refuses anything that is not
      a type with TypeError. */
  lemma ListFixesItemType(t: TypeArg)
    ensures List(t).Ok? <==> t.AType?
    ensures List(t).Err? ==> List(t).error == TypeError
    ensures List(t).Ok? ==> List(t).value == map["item_type" := t.t]
  {
    var m := map["item_type" := t];
    if t.AType? {
      FactoryAccepts(TypedListClass, MapGiven(m), map[]);
      assert (map x | x in m :: m[x].t) == map["item_type" := t.t];
    } else {
      assert m["item_type"].NotAType?;
    }
  }

  /** `Dict(k, v)` fixes the key type to `k` and the item type to `v`; it
      refuses a non-type, and a key type that is not hashable (`list`,
      `dict`), with TypeError. */
  lemma DictFixesTypes(k: TypeArg, v: TypeArg)
    ensures Dict(k, v).Ok? <==> k.AType? && v.AType? && !(k.t.ListClass? || k.t.DictClass?)
    ensures Dict(k, v).Err? ==> Dict(k, v).error == TypeError
    ensures Dict(k, v).Ok? ==> Dict(k, v).value == map["key_type" := k.t, "item_type" := v.t]
  {
    var m := map["key_type" := k, "item_type" := v];
    if k.AType? && v.AType? {
      if k.t.ListClass? || k.t.DictClass? {
        FactoryRefuses(TypedDictClass, MapGiven(m), map[], "key_type");
      } else {
        FactoryAccepts(TypedDictClass, MapGiven(m), map[]);
        assert (map x | x in m :: m[x].t) == map["key_type" := k.t, "item_type" := v.t];
      }
    } else {
      assert !k.AType? ==> m["key_type"].NotAType?;
      assert !v.AType? ==> m["item_type"].NotAType?;
    }
  }
}
