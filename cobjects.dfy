/** Complex objects (resttypes/cobjects.py): the loops of
    ComplexObject.is_acceptable, find_erroneous_data and construct_data and of
    GenericContainer.construct_data, proved to compute the functions of
    RestTypes that specify them, the laws of those functions, the constructor
    with keyword arguments, and the filter-building operators of ComplexField,
    FilterList and FilterCondition. */
module Cobjects {
  import opened PyBase
  import opened Enums
  import opened Timestamps
  import opened Schemas
  import opened Values
  import opened RestTypes

  // ------------------------------------------------------------ entry steps

  /** An entry that names no field still expected, or no declared field,
      stops the acceptance loop with False. */
  lemma AcceptRefused(c: ComplexClass, v: Value, j: nat, req: set<string>, opt: set<string>)
    requires HasItems(v) && j < |EntriesOf(v)|
    requires var name := KeyName(EntriesOf(v)[j].0);
             name.None? || (name.value !in req && name.value !in opt) || name.value !in SchemaOf(c).types
    ensures ComplexEntriesAccept(c, v, j, req, opt) == Ok(false)
  {
  }

  /** Past the last entry the loop accepts when no required name is left,
      or when the object is noneable. */
  lemma AcceptEnd(c: ComplexClass, v: Value, req: set<string>, opt: set<string>)
    requires HasItems(v)
    ensures ComplexEntriesAccept(c, v, |EntriesOf(v)|, req, opt) == Ok(req == {} || Noneable)
  {
  }

  /** An entry naming the expected field `n`, whose value the field's test
      answers with `a`: an exception other than KeyError escapes, False
      refuses, True goes on with `n` taken from the names expected. */
  lemma AcceptField(c: ComplexClass, v: Value, j: nat, req: set<string>, opt: set<string>, n: string, a: Result<bool>)
    requires HasItems(v) && j < |EntriesOf(v)|
    requires KeyName(EntriesOf(v)[j].0) == Some(n) && (n in req || n in opt) && n in SchemaOf(c).types
    requires a == IsAcceptable(EntriesOf(v)[j].1, SchemaOf(c).types[n], Noneable)
    ensures a.Err? ==> ComplexEntriesAccept(c, v, j, req, opt) == (if a.error == KeyError then Ok(false) else Err(a.error))
    ensures a == Ok(false) ==> ComplexEntriesAccept(c, v, j, req, opt) == Ok(false)
    ensures a == Ok(true) ==>
              ComplexEntriesAccept(c, v, j, req, opt) ==
              ComplexEntriesAccept(c, v, j + 1, if n in req then req - {n} else req, if n in req then opt else opt - {n})
  {
  }

  /** An entry naming no declared field is reported, when it can be put in
      a set. */
  lemma FindUnknown(c: ComplexClass, v: Value, j: nat, req: set<string>, opt: set<string>, errors: set<(Value, Value, Reason)>)
    requires HasItems(v) && j < |EntriesOf(v)|
    requires KeyName(EntriesOf(v)[j].0).None? || KeyName(EntriesOf(v)[j].0).value !in SchemaOf(c).types
    ensures var (k, x) := EntriesOf(v)[j];
            FindErroneousFrom(c, v, j, req, opt, errors) ==
              if Hashable(k) && Hashable(x) then FindErroneousFrom(c, v, j + 1, req, opt, errors + {(k, x, NotInSpec)})
              else Err(TypeError)
  {
  }

  /** An entry naming the declared field `n`, whose value the field's test
      answers with `a`: a name not expected raises KeyError, an exception
      escapes, True adds nothing and False reports the entry. */
  lemma FindField(c: ComplexClass, v: Value, j: nat, req: set<string>, opt: set<string>, errors: set<(Value, Value, Reason)>,
                  n: string, a: Result<bool>)
    requires HasItems(v) && j < |EntriesOf(v)|
    requires KeyName(EntriesOf(v)[j].0) == Some(n) && n in SchemaOf(c).types
    requires a == IsAcceptable(EntriesOf(v)[j].1, SchemaOf(c).types[n], Noneable)
    ensures n !in req && n !in opt ==> FindErroneousFrom(c, v, j, req, opt, errors) == Err(KeyError)
    ensures (n in req || n in opt) && a.Err? ==> FindErroneousFrom(c, v, j, req, opt, errors) == Err(a.error)
    ensures (n in req || n in opt) && a == Ok(true) ==>
              FindErroneousFrom(c, v, j, req, opt, errors) ==
              FindErroneousFrom(c, v, j + 1, if n in req then req - {n} else req, if n in req then opt else opt - {n}, errors)
    ensures (n in req || n in opt) && a == Ok(false) ==>
              var (k, x) := EntriesOf(v)[j];
              FindErroneousFrom(c, v, j, req, opt, errors) ==
              if Hashable(k) && Hashable(x) then
                FindErroneousFrom(c, v, j + 1, if n in req then req - {n} else req, if n in req then opt else opt - {n},
                                  errors + {(k, x, WrongType(SchemaOf(c).types[n]))})
              else Err(TypeError)
  {
  }

  // ------------------------------------------------------------ is_acceptable

  /** An entry a complex object accepts on its own: the key names a declared
      field and the value passes that field's test. */
  predicate EntryPasses(c: ComplexClass, e: (Value, Value)) {
    KeyName(e.0).Some? && KeyName(e.0).value in SchemaOf(c).types
    && IsAcceptable(e.1, SchemaOf(c).types[KeyName(e.0).value], Noneable) == Ok(true)
  }

  /** No two keys name the same field. */
  predicate DistinctNames(es: seq<(Value, Value)>) {
    forall i, j :: 0 <= i < j < |es| ==> KeyName(es[i].0) != KeyName(es[j].0)
  }

  /** `ComplexObject.is_acceptable` (resttypes/cobjects.py:229-249) as the
      source runs it: each name is removed from a copy of the required or the
      optional names, so a name not left in either (unknown, or seen before)
      raises KeyError, which is caught. */
  method IsAcceptableLoop(c: ComplexClass, inst: Value) returns (r: Result<bool>)
    ensures r == ComplexAccepts(c, inst)
  {
    if !HasItems(inst) {
      return Err(AttributeError);
    }
    r := AcceptEntries(c, inst);
  }

  /** The loop of `ComplexObject.is_acceptable` over the entries. */
  method AcceptEntries(c: ComplexClass, inst: Value) returns (r: Result<bool>)
    requires HasItems(inst)
    ensures r == ComplexEntriesAccept(c, inst, 0, SchemaOf(c).required, SchemaOf(c).optional)
  {
    var req := SchemaOf(c).required;
    var opt := SchemaOf(c).optional;
    var es := EntriesOf(inst);
    var j := 0;
    while j < |es|
      invariant 0 <= j <= |es|
      invariant ComplexEntriesAccept(c, inst, 0, SchemaOf(c).required, SchemaOf(c).optional) ==
                ComplexEntriesAccept(c, inst, j, req, opt)
    {
      var name := KeyName(es[j].0);
      // a key that is no name, is not (or no longer) expected, or has no
      // type: the KeyError raised is caught and the object refused
      if name.None? || (name.value !in req && name.value !in opt) || name.value !in SchemaOf(c).types {
        AcceptRefused(c, inst, j, req, opt);
        return Ok(false);
      }
      var n := name.value;
      var ok := IsAcceptable(es[j].1, SchemaOf(c).types[n], Noneable);
      AcceptField(c, inst, j, req, opt, n, ok);
      if ok != Ok(true) {
        return if ok.Err? && ok.error != KeyError then Err(ok.error) else Ok(false);
      }
      if n in req {
        req := req - {n};
      } else {
        opt := opt - {n};
      }
      j := j + 1;
    }
    AcceptEnd(c, inst, req, opt);
    return Ok(req == {} || Noneable);
  }

  /** Every entry from `j` on passes and names a field in `names`. */
  predicate PassFrom(c: ComplexClass, es: seq<(Value, Value)>, j: nat, names: set<string>) {
    forall i :: j <= i < |es| ==> EntryPasses(c, es[i]) && KeyName(es[i].0).value in names
  }

  /** No two entries from `j` on name the same field. */
  predicate DistinctFrom(es: seq<(Value, Value)>, j: nat) {
    forall i, i' :: j <= i < i' < |es| ==> KeyName(es[i].0) != KeyName(es[i'].0)
  }

  /** Taking a passing entry off the front: the rest must pass on the names
      left and avoid the name taken. */
  lemma PassFromStep(c: ComplexClass, es: seq<(Value, Value)>, j: nat, names: set<string>)
    requires j < |es| && EntryPasses(c, es[j]) && KeyName(es[j].0).value in names
    ensures PassFrom(c, es, j, names) && DistinctFrom(es, j) <==>
              PassFrom(c, es, j + 1, names - {KeyName(es[j].0).value}) && DistinctFrom(es, j + 1)
  {
    var n := KeyName(es[j].0).value;
    if PassFrom(c, es, j, names) && DistinctFrom(es, j) {
      forall i | j + 1 <= i < |es|
        ensures KeyName(es[i].0).value in names - {n}
      {
        assert KeyName(es[j].0) != KeyName(es[i].0);
      }
    }
    if PassFrom(c, es, j + 1, names - {n}) && DistinctFrom(es, j + 1) {
      forall i, i' | j <= i < i' < |es|
        ensures KeyName(es[i].0) != KeyName(es[i'].0)
      {
        if i == j {
          assert KeyName(es[i'].0).value in names - {n};
        }
      }
    }
  }

  /** The loop from entry `j` accepts exactly when every later entry passes,
      names a field still in `req` or `opt`, and names a different field from
      every other later entry. */
  lemma {:induction false} EntriesAcceptFrom(c: ComplexClass, v: Value, j: nat, req: set<string>, opt: set<string>)
    requires HasItems(v) && j <= |EntriesOf(v)| && req !! opt
    ensures ComplexEntriesAccept(c, v, j, req, opt) == Ok(true) <==>
              PassFrom(c, EntriesOf(v), j, req + opt) && DistinctFrom(EntriesOf(v), j)
    decreases |EntriesOf(v)| - j
  {
    var es := EntriesOf(v);
    if j < |es| {
      var name := KeyName(es[j].0);
      if name.Some? && (name.value in req || name.value in opt) && EntryPasses(c, es[j]) {
        var n := name.value;
        EntriesAcceptFrom(c, v, j + 1, if n in req then req - {n} else req, if n in req then opt else opt - {n});
      }
      AcceptFromAt(c, v, j, req, opt);
    }
  }

  /** One entry of the acceptance loop, given the loop's answer from the
      next entry on. */
  lemma AcceptFromAt(c: ComplexClass, v: Value, j: nat, req: set<string>, opt: set<string>)
    requires HasItems(v) && j < |EntriesOf(v)| && req !! opt
    requires var name := KeyName(EntriesOf(v)[j].0);
             name.Some? && (name.value in req || name.value in opt) && EntryPasses(c, EntriesOf(v)[j]) ==>
               var n := name.value;
               var req' := if n in req then req - {n} else req;
               var opt' := if n in req then opt else opt - {n};
               (ComplexEntriesAccept(c, v, j + 1, req', opt') == Ok(true) <==>
                  PassFrom(c, EntriesOf(v), j + 1, req' + opt') && DistinctFrom(EntriesOf(v), j + 1))
    ensures ComplexEntriesAccept(c, v, j, req, opt) == Ok(true) <==>
              PassFrom(c, EntriesOf(v), j, req + opt) && DistinctFrom(EntriesOf(v), j)
  {
    var es := EntriesOf(v);
    var name := KeyName(es[j].0);
    if name.None? || (name.value !in req && name.value !in opt) || name.value !in SchemaOf(c).types {
      AcceptRefused(c, v, j, req, opt);
      assert !PassFrom(c, es, j, req + opt);
    } else {
      var n := name.value;
      var a := IsAcceptable(es[j].1, SchemaOf(c).types[n], Noneable);
      AcceptField(c, v, j, req, opt, n, a);
      if a == Ok(true) {
        var req' := if n in req then req - {n} else req;
        var opt' := if n in req then opt else opt - {n};
        assert req' + opt' == (req + opt) - {n};
        PassFromStep(c, es, j, req + opt);
      } else {
        assert !EntryPasses(c, es[j]);
        assert !PassFrom(c, es, j, req + opt);
      }
    }
  }

  /** A complex object accepts data exactly when every key names a declared
      field, no two keys name the same field, and every value passes its
      field's test. Required fields may be missing: `_noneable` is True, so
      even empty data is accepted. */
  lemma ComplexAcceptsExactly(c: ComplexClass, v: Value)
    requires HasItems(v)
    ensures ComplexAccepts(c, v) == Ok(true) <==>
              (forall i :: 0 <= i < |EntriesOf(v)| ==> EntryPasses(c, EntriesOf(v)[i])) && DistinctNames(EntriesOf(v))
    ensures |EntriesOf(v)| == 0 ==> ComplexAccepts(c, v) == Ok(true)
  {
    TablesWellFormed(c);
    var s := SchemaOf(c);
    assert s.required + s.optional == s.types.Keys;
    EntriesAcceptFrom(c, v, 0, s.required, s.optional);
    assert DistinctFrom(EntriesOf(v), 0) == DistinctNames(EntriesOf(v));
  }

  // ------------------------------------------------------ find_erroneous_data

  /** Why `e` is reported: it is an entry of the data whose key names no
      declared field, or whose value fails the test of the type reported. */
  predicate Explained(c: ComplexClass, es: seq<(Value, Value)>, e: (Value, Value, Reason)) {
    exists i :: 0 <= i < |es| && es[i].0 == e.0 && es[i].1 == e.1 &&
      match e.2
      case NotInSpec => KeyName(e.0).None? || KeyName(e.0).value !in SchemaOf(c).types
      case WrongType(t) =>
        KeyName(e.0).Some? && KeyName(e.0).value in SchemaOf(c).types && t == SchemaOf(c).types[KeyName(e.0).value]
        && IsAcceptable(e.1, t, Noneable) == Ok(false)
  }

  /** `ComplexObject.find_erroneous_data` (resttypes/cobjects.py:251-272) as
      the source runs it, adding to an `errors` set. An unknown key is
      reported; a known key not left in the required or optional names raises
      KeyError; adding an unhashable entry to the set raises TypeError. */
  method FindErroneousLoop(c: ComplexClass, inst: Value) returns (r: Result<set<(Value, Value, Reason)>>)
    ensures r == FindErroneous(c, inst)
  {
    var req := SchemaOf(c).required;
    var opt := SchemaOf(c).optional;
    var errors: set<(Value, Value, Reason)> := {};
    if !HasItems(inst) {
      return Err(AttributeError);
    }
    var es := EntriesOf(inst);
    var j := 0;
    while j < |es|
      invariant 0 <= j <= |es|
      invariant FindErroneous(c, inst) == FindErroneousFrom(c, inst, j, req, opt, errors)
    {
      var k := es[j].0;
      var x := es[j].1;
      var name := KeyName(k);
      if name.None? || name.value !in SchemaOf(c).types {
        if !(Hashable(k) && Hashable(x)) {
          return Err(TypeError);
        }
        errors := errors + {(k, x, NotInSpec)};
      } else {
        var n := name.value;
        if n in req {
          req := req - {n};
        } else if n in opt {
          opt := opt - {n};
        } else {
          return Err(KeyError);
        }
        var t := SchemaOf(c).types[n];
        var ok := IsAcceptable(x, t, Noneable);
        if ok.Err? {
          return Err(ok.error);
        }
        if !ok.value {
          if !(Hashable(k) && Hashable(x)) {
            return Err(TypeError);
          }
          errors := errors + {(k, x, WrongType(t))};
        }
      }
      j := j + 1;
    }
    return Ok(errors);
  }

  /** Where the acceptance loop passes from entry `j`, the search adds no
      error. */
  lemma {:induction false} FindAcceptedFrom(c: ComplexClass, v: Value, j: nat, req: set<string>, opt: set<string>,
                                            errors: set<(Value, Value, Reason)>)
    requires HasItems(v) && j <= |EntriesOf(v)|
    requires ComplexEntriesAccept(c, v, j, req, opt) == Ok(true)
    ensures FindErroneousFrom(c, v, j, req, opt, errors) == Ok(errors)
    decreases |EntriesOf(v)| - j
  {
    var es := EntriesOf(v);
    if j < |es| {
      var n := KeyName(es[j].0).value;
      var req' := if n in req then req - {n} else req;
      var opt' := if n in req then opt else opt - {n};
      FindAcceptedFrom(c, v, j + 1, req', opt', errors);
    }
  }

  /** The search from entry `j` only adds errors, each explained by an
      entry. */
  lemma {:induction false} FindKeepsFrom(c: ComplexClass, v: Value, j: nat, req: set<string>, opt: set<string>,
                                         errors: set<(Value, Value, Reason)>)
    requires HasItems(v) && j <= |EntriesOf(v)|
    ensures Kept(c, v, FindErroneousFrom(c, v, j, req, opt, errors), errors)
    decreases |EntriesOf(v)| - j
  {
    var es := EntriesOf(v);
    if j < |es| {
      var (k, x) := es[j];
      var name := KeyName(k);
      if name.None? || name.value !in SchemaOf(c).types {
        FindKeepsFrom(c, v, j + 1, req, opt, errors + {(k, x, NotInSpec)});
      } else {
        var n := name.value;
        var req' := if n in req then req - {n} else req;
        var opt' := if n in req then opt else opt - {n};
        FindKeepsFrom(c, v, j + 1, req', opt', errors);
        FindKeepsFrom(c, v, j + 1, req', opt', errors + {(k, x, WrongType(SchemaOf(c).types[n]))});
      }
      KeepsAt(c, v, j, req, opt, errors);
    }
  }

  /** One entry of the search, given that the search keeps its promise from
      the next entry on. */
  lemma KeepsAt(c: ComplexClass, v: Value, j: nat, req: set<string>, opt: set<string>, errors: set<(Value, Value, Reason)>)
    requires HasItems(v) && j < |EntriesOf(v)|
    requires var (k, x) := EntriesOf(v)[j];
             var name := KeyName(k);
             if name.None? || name.value !in SchemaOf(c).types then
               Kept(c, v, FindErroneousFrom(c, v, j + 1, req, opt, errors + {(k, x, NotInSpec)}), errors + {(k, x, NotInSpec)})
             else
               var n := name.value;
               var req' := if n in req then req - {n} else req;
               var opt' := if n in req then opt else opt - {n};
               var e := (k, x, WrongType(SchemaOf(c).types[n]));
               Kept(c, v, FindErroneousFrom(c, v, j + 1, req', opt', errors), errors)
               && Kept(c, v, FindErroneousFrom(c, v, j + 1, req', opt', errors + {e}), errors + {e})
    ensures Kept(c, v, FindErroneousFrom(c, v, j, req, opt, errors), errors)
  {
    var (k, x) := EntriesOf(v)[j];
    var name := KeyName(k);
    if name.None? || name.value !in SchemaOf(c).types {
      FindUnknown(c, v, j, req, opt, errors);
      KeptUnknown(c, v, j, FindErroneousFrom(c, v, j + 1, req, opt, errors + {(k, x, NotInSpec)}), errors);
    } else {
      var n := name.value;
      var req' := if n in req then req - {n} else req;
      var opt' := if n in req then opt else opt - {n};
      var t := SchemaOf(c).types[n];
      var a := IsAcceptable(x, t, Noneable);
      FindField(c, v, j, req, opt, errors, n, a);
      if a == Ok(false) {
        KeptWrong(c, v, j, FindErroneousFrom(c, v, j + 1, req', opt', errors + {(k, x, WrongType(t))}), errors);
      }
    }
  }

  /** The result `r` holds `errors` and explains every error it adds. */
  predicate Kept(c: ComplexClass, v: Value, r: Result<set<(Value, Value, Reason)>>, errors: set<(Value, Value, Reason)>)
    requires HasItems(v)
  {
    r.Ok? ==> errors <= r.value && forall e :: e in r.value && e !in errors ==> Explained(c, EntriesOf(v), e)
  }

  /** Reporting entry `j` as naming no declared field keeps the search's
      promise. */
  lemma KeptUnknown(c: ComplexClass, v: Value, j: nat, r: Result<set<(Value, Value, Reason)>>, errors: set<(Value, Value, Reason)>)
    requires HasItems(v) && j < |EntriesOf(v)|
    requires KeyName(EntriesOf(v)[j].0).None? || KeyName(EntriesOf(v)[j].0).value !in SchemaOf(c).types
    requires Kept(c, v, r, errors + {(EntriesOf(v)[j].0, EntriesOf(v)[j].1, NotInSpec)})
    ensures Kept(c, v, r, errors)
  {
    var e := (EntriesOf(v)[j].0, EntriesOf(v)[j].1, NotInSpec);
    assert Explained(c, EntriesOf(v), e);
  }

  /** Reporting entry `j` as failing its field's test keeps the search's
      promise. */
  lemma KeptWrong(c: ComplexClass, v: Value, j: nat, r: Result<set<(Value, Value, Reason)>>, errors: set<(Value, Value, Reason)>)
    requires HasItems(v) && j < |EntriesOf(v)|
    requires var name := KeyName(EntriesOf(v)[j].0);
             name.Some? && name.value in SchemaOf(c).types
             && IsAcceptable(EntriesOf(v)[j].1, SchemaOf(c).types[name.value], Noneable) == Ok(false)
             && Kept(c, v, r, errors + {(EntriesOf(v)[j].0, EntriesOf(v)[j].1, WrongType(SchemaOf(c).types[name.value]))})
    ensures Kept(c, v, r, errors)
  {
    var t := SchemaOf(c).types[KeyName(EntriesOf(v)[j].0).value];
    var e := (EntriesOf(v)[j].0, EntriesOf(v)[j].1, WrongType(t));
    assert Explained(c, EntriesOf(v), e);
  }

  /** Wherever the acceptance loop refuses from entry `j`, the search adds
      an error. */
  lemma {:induction false} FindRejectedFrom(c: ComplexClass, v: Value, j: nat, req: set<string>, opt: set<string>,
                                            errors: set<(Value, Value, Reason)>)
    requires HasItems(v) && j <= |EntriesOf(v)|
    ensures Rejected(c, v, j, req, opt, errors)
    decreases |EntriesOf(v)| - j
  {
    var es := EntriesOf(v);
    if j < |es| {
      var (k, x) := es[j];
      var name := KeyName(k);
      if name.None? || name.value !in SchemaOf(c).types {
        FindKeepsFrom(c, v, j + 1, req, opt, errors + {(k, x, NotInSpec)});
      } else {
        var n := name.value;
        var req' := if n in req then req - {n} else req;
        var opt' := if n in req then opt else opt - {n};
        FindRejectedFrom(c, v, j + 1, req', opt', errors);
        FindKeepsFrom(c, v, j + 1, req', opt', errors + {(k, x, WrongType(SchemaOf(c).types[n]))});
      }
      RejectedAt(c, v, j, req, opt, errors);
    }
  }

  /** When the search from entry `j` returns, it returns errors wherever the
      acceptance loop refuses. */
  predicate Rejected(c: ComplexClass, v: Value, j: nat, req: set<string>, opt: set<string>, errors: set<(Value, Value, Reason)>)
    requires HasItems(v) && j <= |EntriesOf(v)|
  {
    FindErroneousFrom(c, v, j, req, opt, errors).Ok? && ComplexEntriesAccept(c, v, j, req, opt) != Ok(true) ==>
      FindErroneousFrom(c, v, j, req, opt, errors).value != {}
  }

  /** One entry of the search against the acceptance loop, given the next
      entry's. */
  lemma RejectedAt(c: ComplexClass, v: Value, j: nat, req: set<string>, opt: set<string>, errors: set<(Value, Value, Reason)>)
    requires HasItems(v) && j < |EntriesOf(v)|
    requires var (k, x) := EntriesOf(v)[j];
             var name := KeyName(k);
             if name.None? || name.value !in SchemaOf(c).types then
               Kept(c, v, FindErroneousFrom(c, v, j + 1, req, opt, errors + {(k, x, NotInSpec)}), errors + {(k, x, NotInSpec)})
             else
               var n := name.value;
               var req' := if n in req then req - {n} else req;
               var opt' := if n in req then opt else opt - {n};
               var e := (k, x, WrongType(SchemaOf(c).types[n]));
               Rejected(c, v, j + 1, req', opt', errors)
               && Kept(c, v, FindErroneousFrom(c, v, j + 1, req', opt', errors + {e}), errors + {e})
    ensures Rejected(c, v, j, req, opt, errors)
  {
    var (k, x) := EntriesOf(v)[j];
    var name := KeyName(k);
    if name.None? || name.value !in SchemaOf(c).types {
      FindUnknown(c, v, j, req, opt, errors);
    } else {
      var n := name.value;
      var a := IsAcceptable(x, SchemaOf(c).types[n], Noneable);
      FindField(c, v, j, req, opt, errors, n, a);
      if n in req || n in opt {
        AcceptField(c, v, j, req, opt, n, a);
      }
    }
  }

  /** find_erroneous_data agrees with is_acceptable: on data the object
      accepts it finds nothing, and whenever it returns, it returns the empty
      set exactly when the data is accepted, and every error it reports names
      an entry of the data and why it fails. */
  lemma FindErroneousAgrees(c: ComplexClass, v: Value)
    requires HasItems(v)
    ensures ComplexAccepts(c, v) == Ok(true) ==> FindErroneous(c, v) == Ok({})
    ensures FindErroneous(c, v).Ok? ==> (FindErroneous(c, v).value == {} <==> ComplexAccepts(c, v) == Ok(true))
    ensures FindErroneous(c, v).Ok? ==> forall e :: e in FindErroneous(c, v).value ==> Explained(c, EntriesOf(v), e)
  {
    var s := SchemaOf(c);
    if ComplexAccepts(c, v) == Ok(true) {
      FindAcceptedFrom(c, v, 0, s.required, s.optional, {});
    }
    if FindErroneous(c, v).Ok? {
      FindKeepsFrom(c, v, 0, s.required, s.optional, {});
      FindRejectedFrom(c, v, 0, s.required, s.optional, {});
    }
  }

  /** Refused data raises while the refusal is reported: UnicodeError when an
      entry of the data has a non-ASCII unicode key or value and the report
      lists it, and otherwise the bare Exception. */
  lemma RefusalMessage(c: ComplexClass, v: Value)
    requires HasItems(v) && ComplexAccepts(c, v) == Ok(false) && FindErroneous(c, v).Ok?
    ensures ComplexBuild(c, v).Err?
    ensures ComplexBuild(c, v).error == UnicodeError || ComplexBuild(c, v).error == InvalidData
    ensures ComplexBuild(c, v).error == UnicodeError ==>
              exists i :: 0 <= i < |EntriesOf(v)| && (NonAsciiText(EntriesOf(v)[i].0) || NonAsciiText(EntriesOf(v)[i].1))
  {
    var errs := FindErroneous(c, v).value;
    FindErroneousAgrees(c, v);
    if MessageFails(errs) {
      var e :| e in errs && (NonAsciiText(e.0) || NonAsciiText(e.1));
      assert Explained(c, EntriesOf(v), e);
    }
  }

  /** `QueryLimit({'maxRecords': u'\xe9'})`: the integer field refuses the
      text, and the report of it raises UnicodeError. */
  lemma RefusalMessageUnicode()
    ensures ComplexCreate(QueryLimit, Dict([(Str("maxRecords"), Unicode("\U{E9}"))])) == Err(UnicodeError)
  {
    var d := Dict([(Str("maxRecords"), Unicode("\U{E9}"))]);
    assert "\U{E9}"[0] as int >= 128;
    var s := SchemaOf(QueryLimit);
    assert KeyName(Str("maxRecords")) == Some("maxRecords") && s.types["maxRecords"] == TInt;
    assert IsAcceptable(Unicode("\U{E9}"), TInt, Noneable) == Ok(false);
    assert ComplexAccepts(QueryLimit, d) == Ok(false);
    var e := (Str("maxRecords"), Unicode("\U{E9}"), WrongType(TInt));
    FindField(QueryLimit, d, 0, s.required, s.optional, {}, "maxRecords", Ok(false));
    assert {} + {e} == {e};
    assert FindErroneousFrom(QueryLimit, d, 0, s.required, s.optional, {})
        == FindErroneousFrom(QueryLimit, d, 1, s.required, s.optional - {"maxRecords"}, {e});
    assert FindErroneousFrom(QueryLimit, d, 1, s.required, s.optional - {"maxRecords"}, {e}) == Ok({e});
    assert FindErroneous(QueryLimit, d) == Ok({e});
  }

  // ------------------------------------------------------------ construct_data

  /** An entry construct_data converts: the key names a declared field and
      the value converts to that field's type. */
  predicate EntryConverts(c: ComplexClass, e: (Value, Value)) {
    KeyName(e.0).Some? && KeyName(e.0).value in SchemaOf(c).types
    && ConstructData(e.1, SchemaOf(c).types[KeyName(e.0).value], Noneable).Ok?
  }

  /** The converted value of an entry that converts. */
  function Converted(c: ComplexClass, e: (Value, Value)): Value
    requires EntryConverts(c, e)
  {
    ConstructData(e.1, SchemaOf(c).types[KeyName(e.0).value], Noneable).value
  }

  /** An entry whose key names no declared field stops the conversion
      with KeyError. */
  lemma ConstructUnknown(c: ComplexClass, v: Value, j: nat, acc: seq<(Value, Value)>)
    requires HasItems(v) && j < |EntriesOf(v)|
    requires KeyName(EntriesOf(v)[j].0).None? || KeyName(EntriesOf(v)[j].0).value !in SchemaOf(c).types
    ensures ConstructEntries(c, v, j, acc) == Err(KeyError)
  {
  }

  /** An entry naming field `n` stops the conversion with the error of its
      conversion `y`, or goes on with the converted entry appended. */
  lemma ConstructField(c: ComplexClass, v: Value, j: nat, acc: seq<(Value, Value)>, n: string, y: Result<Value>)
    requires HasItems(v) && j < |EntriesOf(v)|
    requires KeyName(EntriesOf(v)[j].0) == Some(n) && n in SchemaOf(c).types
    requires y == ConstructData(EntriesOf(v)[j].1, SchemaOf(c).types[n], Noneable)
    ensures y.Err? ==> ConstructEntries(c, v, j, acc) == Err(y.error)
    ensures y.Ok? ==> ConstructEntries(c, v, j, acc) == ConstructEntries(c, v, j + 1, acc + [(EntriesOf(v)[j].0, y.value)])
  {
  }

  /** `ComplexObject.construct_data` (resttypes/cobjects.py:274-285) as the
      source runs it: the data must have `items()` and must not be a typed
      dict, whose constructor refuses a dict-typed argument. */
  method ConstructLoop(c: ComplexClass, inst: Value) returns (r: Result<Value>)
    ensures r == ComplexConstruct(c, inst)
  {
    if inst.TypedDictObj? {
      return Err(TypeError);
    }
    if !HasItems(inst) {
      return Err(AttributeError);
    }
    var entries := ConvertEntries(c, inst);
    if entries.Err? {
      return Err(entries.error);
    }
    return Ok(Complex(c, entries.value));
  }

  /** The loop of construct_data: each entry of a copy is overwritten in
      place by its converted value. */
  method ConvertEntries(c: ComplexClass, inst: Value) returns (r: Result<seq<(Value, Value)>>)
    requires HasItems(inst)
    ensures r == ConstructEntries(c, inst, 0, [])
  {
    var es := EntriesOf(inst);
    var copy := es;
    var j := 0;
    while j < |copy|
      invariant |copy| == |es| && 0 <= j <= |es|
      invariant copy[j..] == es[j..]
      invariant ConstructEntries(c, inst, 0, []) == ConstructEntries(c, inst, j, copy[..j])
    {
      assert copy[j] == copy[j..][0] == es[j];
      var name := KeyName(copy[j].0);
      if name.None? || name.value !in SchemaOf(c).types {
        ConstructUnknown(c, inst, j, copy[..j]);
        return Err(KeyError);
      }
      var y := ConstructData(copy[j].1, SchemaOf(c).types[name.value], Noneable);
      ConstructField(c, inst, j, copy[..j], name.value, y);
      if y.Err? {
        return Err(y.error);
      }
      Overwrite(copy, j, (copy[j].0, y.value));
      copy := copy[j := (copy[j].0, y.value)];
      j := j + 1;
    }
    assert copy[..j] == copy;
    return Ok(copy);
  }

  /** Every entry from `j` on converts. */
  predicate ConvertsFrom(c: ComplexClass, es: seq<(Value, Value)>, j: nat) {
    forall i :: j <= i < |es| ==> EntryConverts(c, es[i])
  }

  /** The entries from `j` on, each with its value converted. */
  function ConvertedFrom(c: ComplexClass, es: seq<(Value, Value)>, j: nat): seq<(Value, Value)>
    requires j <= |es| && ConvertsFrom(c, es, j)
    decreases |es| - j
  {
    if j == |es| then [] else [(es[j].0, Converted(c, es[j]))] + ConvertedFrom(c, es, j + 1)
  }

  /** The conversion from entry `j`, after `acc`, succeeds exactly when every
      later entry converts, and then appends the converted later entries to
      `acc` in order. */
  lemma {:induction false} ConstructEntriesLaws(c: ComplexClass, v: Value, j: nat, acc: seq<(Value, Value)>)
    requires HasItems(v) && j <= |EntriesOf(v)|
    ensures ConstructEntries(c, v, j, acc).Ok? <==> ConvertsFrom(c, EntriesOf(v), j)
    ensures ConstructEntries(c, v, j, acc).Ok? ==> ConstructEntries(c, v, j, acc).value == acc + ConvertedFrom(c, EntriesOf(v), j)
    decreases |EntriesOf(v)| - j
  {
    var es := EntriesOf(v);
    if j < |es| {
      if EntryConverts(c, es[j]) {
        ConstructEntriesLaws(c, v, j + 1, acc + [(es[j].0, Converted(c, es[j]))]);
        ConstructFromAt(c, v, j, acc);
      } else {
        ConstructRefused(c, v, j, acc);
      }
    }
  }

  /** An entry that does not convert stops the conversion. */
  lemma ConstructRefused(c: ComplexClass, v: Value, j: nat, acc: seq<(Value, Value)>)
    requires HasItems(v) && j < |EntriesOf(v)| && !EntryConverts(c, EntriesOf(v)[j])
    ensures ConstructEntries(c, v, j, acc).Err? && !ConvertsFrom(c, EntriesOf(v), j)
  {
    var es := EntriesOf(v);
    var name := KeyName(es[j].0);
    if name.None? || name.value !in SchemaOf(c).types {
      ConstructUnknown(c, v, j, acc);
    } else {
      var y := ConstructData(es[j].1, SchemaOf(c).types[name.value], Noneable);
      ConstructField(c, v, j, acc, name.value, y);
    }
  }

  /** Past an entry that converts, the later entries decide. */
  lemma ConvertsStep(c: ComplexClass, es: seq<(Value, Value)>, j: nat)
    requires j < |es| && EntryConverts(c, es[j])
    ensures ConvertsFrom(c, es, j) <==> ConvertsFrom(c, es, j + 1)
  {
    if ConvertsFrom(c, es, j + 1) {
      forall i | j <= i < |es|
        ensures EntryConverts(c, es[i])
      {
        if i > j {
          assert j + 1 <= i;
        }
      }
    }
  }

  /** An entry that converts is appended, given the conversion from the
      next entry. */
  lemma ConstructFromAt(c: ComplexClass, v: Value, j: nat, acc: seq<(Value, Value)>)
    requires HasItems(v) && j < |EntriesOf(v)| && EntryConverts(c, EntriesOf(v)[j])
    requires var acc' := acc + [(EntriesOf(v)[j].0, Converted(c, EntriesOf(v)[j]))];
             (ConstructEntries(c, v, j + 1, acc').Ok? <==> ConvertsFrom(c, EntriesOf(v), j + 1))
             && (ConstructEntries(c, v, j + 1, acc').Ok? ==>
                   ConstructEntries(c, v, j + 1, acc').value == acc' + ConvertedFrom(c, EntriesOf(v), j + 1))
    ensures ConstructEntries(c, v, j, acc).Ok? <==> ConvertsFrom(c, EntriesOf(v), j)
    ensures ConstructEntries(c, v, j, acc).Ok? ==> ConstructEntries(c, v, j, acc).value == acc + ConvertedFrom(c, EntriesOf(v), j)
  {
    var es := EntriesOf(v);
    var x := (es[j].0, Converted(c, es[j]));
    ConstructField(c, v, j, acc, KeyName(es[j].0).value, ConstructData(es[j].1, SchemaOf(c).types[KeyName(es[j].0).value], Noneable));
    ConvertsStep(c, es, j);
    if ConvertsFrom(c, es, j) {
      assert acc + [x] + ConvertedFrom(c, es, j + 1) == acc + ([x] + ConvertedFrom(c, es, j + 1));
    }
  }

  /** Entry `i` of the converted entries from `j` is entry `i` of the data,
      converted. */
  lemma {:induction false} ConvertedFromAt(c: ComplexClass, es: seq<(Value, Value)>, j: nat, i: nat)
    requires j <= i < |es| && ConvertsFrom(c, es, j)
    ensures |ConvertedFrom(c, es, j)| == |es| - j
    ensures ConvertedFrom(c, es, j)[i - j] == (es[i].0, Converted(c, es[i]))
    decreases i - j
  {
    ConvertedLength(c, es, j);
    if i > j {
      ConvertedFromAt(c, es, j + 1, i);
      assert ConvertedFrom(c, es, j)[i - j] == ConvertedFrom(c, es, j + 1)[i - j - 1];
    }
  }

  /** The converted entries from `j` are as many as the entries from `j`. */
  lemma {:induction false} ConvertedLength(c: ComplexClass, es: seq<(Value, Value)>, j: nat)
    requires j <= |es| && ConvertsFrom(c, es, j)
    ensures |ConvertedFrom(c, es, j)| == |es| - j
    decreases |es| - j
  {
    if j < |es| {
      ConvertedLength(c, es, j + 1);
    }
  }

  /** construct_data succeeds exactly when every entry converts, and then
      returns an object of the class with the same keys in the same order,
      each value converted by its field's type. */
  lemma ComplexConstructLaws(c: ComplexClass, v: Value)
    requires HasItems(v) && !v.TypedDictObj?
    ensures ComplexConstruct(c, v).Ok? <==> forall i :: 0 <= i < |EntriesOf(v)| ==> EntryConverts(c, EntriesOf(v)[i])
    ensures ComplexConstruct(c, v).Ok? ==>
              var r := ComplexConstruct(c, v).value;
              r.Complex? && r.cls == c && |r.data| == |EntriesOf(v)|
              && forall i :: 0 <= i < |r.data| ==> r.data[i] == (EntriesOf(v)[i].0, Converted(c, EntriesOf(v)[i]))
  {
    ConstructEntriesLaws(c, v, 0, []);
    ComplexConstructShape(c, v);
  }

  /** The object construct_data returns holds the converted entries. */
  lemma ComplexConstructShape(c: ComplexClass, v: Value)
    requires HasItems(v) && !v.TypedDictObj?
    ensures ComplexConstruct(c, v).Ok? ==>
              var r := ComplexConstruct(c, v).value;
              r.Complex? && r.cls == c && |r.data| == |EntriesOf(v)|
              && forall i :: 0 <= i < |r.data| ==>
                   EntryConverts(c, EntriesOf(v)[i]) && r.data[i] == (EntriesOf(v)[i].0, Converted(c, EntriesOf(v)[i]))
  {
    var built := ConstructEntries(c, v, 0, []);
    if built.Ok? {
      var es := built.value;
      assert ComplexConstruct(c, v) == Ok(Complex(c, es));
      ConstructEntriesLength(c, v);
      forall i | 0 <= i < |es|
        ensures EntryConverts(c, EntriesOf(v)[i]) && es[i] == (EntriesOf(v)[i].0, Converted(c, EntriesOf(v)[i]))
      {
        ConstructedAt(c, v, i);
      }
    }
  }

  /** A successful conversion has one entry per entry of the data. */
  lemma ConstructEntriesLength(c: ComplexClass, v: Value)
    requires HasItems(v) && ConstructEntries(c, v, 0, []).Ok?
    ensures |ConstructEntries(c, v, 0, []).value| == |EntriesOf(v)|
  {
    ConstructEntriesLaws(c, v, 0, []);
    ConvertedLength(c, EntriesOf(v), 0);
    assert [] + ConvertedFrom(c, EntriesOf(v), 0) == ConvertedFrom(c, EntriesOf(v), 0);
  }

  /** Entry `i` of a successful conversion is entry `i` of the data with
      its value converted. */
  lemma ConstructedAt(c: ComplexClass, v: Value, i: nat)
    requires HasItems(v) && i < |EntriesOf(v)| && ConstructEntries(c, v, 0, []).Ok?
    ensures EntryConverts(c, EntriesOf(v)[i])
    ensures |ConstructEntries(c, v, 0, []).value| == |EntriesOf(v)|
    ensures ConstructEntries(c, v, 0, []).value[i] == (EntriesOf(v)[i].0, Converted(c, EntriesOf(v)[i]))
  {
    ConstructEntriesLaws(c, v, 0, []);
    ConvertedFromAt(c, EntriesOf(v), 0, i);
    assert [] + ConvertedFrom(c, EntriesOf(v), 0) == ConvertedFrom(c, EntriesOf(v), 0);
  }

  /** Every field of a constructed object holds None or an instance of the
      field's declared type. */
  predicate FieldsTyped(c: ComplexClass, es: seq<(Value, Value)>) {
    forall i :: 0 <= i < |es| ==>
      KeyName(es[i].0).Some? && KeyName(es[i].0).value in SchemaOf(c).types
      && (es[i].1.PyNone? || IsInstance(es[i].1, SchemaOf(c).types[KeyName(es[i].0).value]))
  }

  /** A complex object built from data has the class asked for, the keys of
      the data, and fields of their declared types. */
  lemma ComplexCreateTyped(c: ComplexClass, v: Value)
    requires ComplexCreate(c, v).Ok?
    ensures ComplexCreate(c, v).value.Complex? && ComplexCreate(c, v).value.cls == c
    ensures FieldsTyped(c, ComplexCreate(c, v).value.data)
    ensures !v.PyNone? ==> HasItems(v) && Keys(ComplexCreate(c, v).value.data) == Keys(EntriesOf(v))
  {
    if !v.PyNone? {
      assert ComplexBuild(c, v).Ok?;
      assert ComplexAccepts(c, v).Ok?;
      ComplexConstructLaws(c, v);
      var r := ComplexCreate(c, v).value;
      forall i | 0 <= i < |r.data|
        ensures KeyName(r.data[i].0).Some? && KeyName(r.data[i].0).value in SchemaOf(c).types
        ensures r.data[i].1.PyNone? || IsInstance(r.data[i].1, SchemaOf(c).types[KeyName(r.data[i].0).value])
      {
        var e := EntriesOf(v)[i];
        ConstructDataInstance(e.1, SchemaOf(c).types[KeyName(e.0).value], Noneable);
      }
    }
  }

  /** `obj.attr` for a field of a complex object (resttypes/cobjects.py:175-189):
      a name outside ALL_ATTRIBS, or a field not set, raises AttributeError. */
  function GetField(c: ComplexClass, data: seq<(Value, Value)>, attr: string): (r: Result<Value>)
    ensures r.Ok? <==> attr in SchemaOf(c).all && LookupName(data, attr).Some?
    ensures r.Err? ==> r.error == AttributeError
  {
    if attr !in SchemaOf(c).all then Err(AttributeError)
    else
      match LookupName(data, attr)
      case None => Err(AttributeError)
      case Some(x) => Ok(x)
  }

  /** Reading a field of an object built from data gives the data's value for
      that field, converted by the field's type. */
  lemma GetFieldAfterCreate(c: ComplexClass, v: Value, i: nat)
    requires ComplexCreate(c, v).Ok? && !v.PyNone? && HasItems(v) && i < |EntriesOf(v)|
    requires KeyName(EntriesOf(v)[i].0).Some? && KeyName(EntriesOf(v)[i].0).value in SchemaOf(c).all
    ensures EntryConverts(c, EntriesOf(v)[i])
    ensures ComplexCreate(c, v).value.Complex? && GetField(c, ComplexCreate(c, v).value.data, KeyName(EntriesOf(v)[i].0).value) == Ok(Converted(c, EntriesOf(v)[i]))
  {
    var es := EntriesOf(v);
    var n := KeyName(es[i].0).value;
    assert ComplexBuild(c, v).Ok?;
    assert ComplexAccepts(c, v) == Ok(true);
    ComplexAcceptsExactly(c, v);
    ComplexConstructLaws(c, v);
    var data := ComplexCreate(c, v).value.data;
    assert data[i] == (es[i].0, Converted(c, es[i]));
    FirstName(data, n, i);
  }

  /** A name that occurs at entry `i` and at no other entry is found there. */
  lemma {:induction false} FirstName(data: seq<(Value, Value)>, n: string, i: nat)
    requires i < |data| && KeyName(data[i].0) == Some(n)
    requires forall j :: 0 <= j < |data| && j != i ==> KeyName(data[j].0) != Some(n)
    ensures LookupName(data, n) == Some(data[i].1)
  {
    if i > 0 {
      FirstName(data[1..], n, i - 1);
    }
  }

  /** `getattr(container, item)` on a GenericContainer (resttypes/cobjects.py:297-310):
      data that has a `get` method, a dict or a TypedDict (typed/__init__.py:461-465),
      answers with the value under the name, or None when there is none; other
      data is returned whatever is asked. */
  function GenericGet(content: Value, item: string): (r: Value)
    ensures HasGet(content) && LookupName(EntriesOf(content), item).None? ==> r == PyNone
    ensures HasGet(content) && LookupName(EntriesOf(content), item).Some? ==>
              exists j :: 0 <= j < |EntriesOf(content)| && EntriesOf(content)[j] == (EntriesOf(content)[j].0, r)
                          && KeyName(EntriesOf(content)[j].0) == Some(item)
    ensures !HasGet(content) ==> r == content
  {
    if HasGet(content) then
      match LookupName(EntriesOf(content), item)
      case None => PyNone
      case Some(x) => x
    else content
  }

  /** The data a GenericContainer can hold that answers `hasattr(data, 'get')`. */
  predicate HasGet(content: Value) {
    content.Dict? || content.TypedDictObj?
  }

  /** A GenericContainer over a TypedDict keeps the typed dict, and an
      attribute read on it is the typed dict's `get` of that name. */
  lemma GenericTypedDictGet(k: FieldType, i: FieldType, es: seq<(Value, Value)>, item: string)
    ensures GenericCreate(TypedDictObj(k, i, es)) == Ok(Generic(TypedDictObj(k, i, es)))
    ensures LookupName(es, item).Some? ==> GenericGet(TypedDictObj(k, i, es), item) == LookupName(es, item).value
    ensures LookupName(es, item).None? ==> GenericGet(TypedDictObj(k, i, es), item) == PyNone
  {
  }

  /** A GenericContainer over a typed dict has the typed dict's `items()`:
      the typed-dict check and `Dict(k, i)(g)` read its entries as they read
      the typed dict's own. */
  lemma GenericOverTypedDictItems(k: FieldType, i: FieldType, es: seq<(Value, Value)>, k': FieldType, i': FieldType)
    ensures var g := Generic(TypedDictObj(k, i, es));
            HasItems(g) && EntriesOf(g) == es
            && DictAccepts(k', i', g) == DictAccepts(k', i', TypedDictObj(k, i, es))
            && DictCreate(k', i', g) == DictCreate(k', i', TypedDictObj(k, i, es))
  {
    DictAcceptsSameEntries(Generic(TypedDictObj(k, i, es)), TypedDictObj(k, i, es), k', i');
  }

  /** The typed-dict check reads nothing of its argument but the entries. */
  lemma DictAcceptsSameEntries(v: Value, w: Value, k: FieldType, i: FieldType)
    requires HasItems(v) && HasItems(w) && EntriesOf(v) == EntriesOf(w)
    ensures DictAccepts(k, i, v) == DictAccepts(k, i, w)
  {
  }

  /** Building a complex object or another GenericContainer from a
      GenericContainer over a typed dict copies `_data`, and TypedDict.copy
      raises TypeError. */
  lemma GenericOverTypedDictCopy(k: FieldType, i: FieldType, es: seq<(Value, Value)>, c: ComplexClass)
    ensures var g := Generic(TypedDictObj(k, i, es));
            ComplexCreate(c, g) == Err(TypeError)
            && GenericCreate(g) == Err(TypeError)
            && SettleData(g) == Err(TypeError)
  {
  }

  // --------------------------------------------- GenericContainer.construct_data

  /** `GenericContainer.construct_data` (resttypes/cobjects.py:322-344) as the
      source runs it: a list or dict is copied and each element or value whose
      exact type is list or dict is overwritten by a new GenericContainer. */
  method GenericConstructLoop(inst: Value) returns (r: Value)
    ensures r == GenericWrap(inst)
    decreases inst
  {
    if inst.List? || inst.FilterList? {
      var xs := inst.items;
      var out := xs;
      for k := 0 to |xs|
        invariant |out| == |xs|
        invariant forall i :: 0 <= i < k ==> out[i] == Wrap(xs[i])
        invariant forall i :: k <= i < |xs| ==> out[i] == xs[i]
      {
        if xs[k].List? || xs[k].Dict? {
          var w := GenericConstructLoop(xs[k]);
          out := out[k := Generic(w)];
        }
      }
      return List(out);
    } else if inst.Dict? || inst.Complex? || (inst.Generic? && inst.content.Dict?) {
      var es := EntriesOf(inst);
      var out := es;
      for k := 0 to |es|
        invariant |out| == |es|
        invariant forall i :: 0 <= i < k ==> out[i] == (es[i].0, Wrap(es[i].1))
        invariant forall i :: k <= i < |es| ==> out[i] == es[i]
      {
        if es[k].1.List? || es[k].1.Dict? {
          assert es[k] in es;
          var w := GenericConstructLoop(es[k].1);
          out := out[k := (es[k].0, Generic(w))];
        }
      }
      return Dict(out);
    }
    return inst;
  }

  /** Data made only of plain values, lists and dicts, as JSON decoding gives
      it: no GenericContainer, FilterList or complex object anywhere inside. */
  predicate Plain(v: Value)
    decreases v
  {
    match v
    case List(xs) => forall i :: 0 <= i < |xs| ==> Plain(xs[i])
    case Dict(es) => forall i :: 0 <= i < |es| ==> Plain(es[i].1)
    case Generic(_) => false
    case FilterList(_) => false
    case Complex(_, _) => false
    case _ => true
  }

  /** The data a GenericContainer stands for, every container unwrapped. */
  function Unwrap(v: Value): Value
    decreases v
  {
    match v
    case Generic(d) => Unwrap(d)
    case List(xs) => List(seq(|xs|, i requires 0 <= i < |xs| => Unwrap(xs[i])))
    case Dict(es) => Dict(seq(|es|, i requires 0 <= i < |es| => (es[i].0, Unwrap(es[i].1))))
    case _ => v
  }

  /** Wrapping loses nothing: unwrapping a GenericContainer's data gives back
      the plain data it was built from. */
  lemma {:induction false} GenericRoundTrip(v: Value)
    requires Plain(v)
    ensures Unwrap(GenericWrap(v)) == v
    decreases v, 0
  {
    match v
    case List(xs) =>
      forall i | 0 <= i < |xs|
        ensures Unwrap(Wrap(xs[i])) == xs[i]
      {
        WrapRoundTrip(xs[i]);
      }
      assert Unwrap(GenericWrap(v)).items == xs;
    case Dict(es) =>
      forall i | 0 <= i < |es|
        ensures Unwrap(Wrap(es[i].1)) == es[i].1
      {
        WrapRoundTrip(es[i].1);
      }
      assert Unwrap(GenericWrap(v)).entries == es;
    case _ =>
  }

  lemma {:induction false} WrapRoundTrip(x: Value)
    requires Plain(x)
    ensures Unwrap(Wrap(x)) == x
    decreases x, 1
  {
    if x.List? || x.Dict? {
      GenericRoundTrip(x);
    }
  }

  /** After wrapping, no element or value of the container is a bare list or
      dict: each one became a GenericContainer. */
  lemma WrapLeavesNoBareContainers(v: Value)
    ensures GenericWrap(v).List? ==> forall i :: 0 <= i < |GenericWrap(v).items| ==>
              !GenericWrap(v).items[i].List? && !GenericWrap(v).items[i].Dict?
    ensures GenericWrap(v).Dict? && !v.Dict? ==> HasItems(v)
    ensures GenericWrap(v).Dict? ==> forall i :: 0 <= i < |GenericWrap(v).entries| ==>
              !GenericWrap(v).entries[i].1.List? && !GenericWrap(v).entries[i].1.Dict?
  {
    forall x | true
      ensures !Wrap(x).List? && !Wrap(x).Dict?
    {
      WrapNotBare(x);
    }
  }

  lemma WrapNotBare(x: Value)
    ensures !Wrap(x).List? && !Wrap(x).Dict?
  {
    if x.List? || x.Dict? {
      assert GenericCreate(x) == Ok(Generic(GenericWrap(x)));
    }
  }

  // -------------------------------------------------- ComplexObject.__init__

  /** `{k.rstrip('_'): to_str(v) for k, v in kwargs.items()}`, added to `acc`
      one keyword at a time; a later keyword whose stripped name clashes with
      an earlier one wins. */
  function KwargsToStr(kwargs: seq<(string, Value)>, acc: seq<(Value, Value)>): Result<seq<(Value, Value)>>
    decreases |kwargs|
  {
    if |kwargs| == 0 then Ok(acc)
    else
      match ToStr(kwargs[0].1)
      case Err(e) => Err(e)
      case Ok(y) => KwargsToStr(kwargs[1..], DictPut(acc, Str(RStrip(kwargs[0].0, '_')), y))
  }

  /** `d.update(other)` on a plain dict. */
  function Update(es: seq<(Value, Value)>, other: seq<(Value, Value)>): seq<(Value, Value)>
    decreases |other|
  {
    if |other| == 0 then es else Update(DictPut(es, other[0].0, other[0].1), other[1..])
  }

  /** The data `__init__` settles on before the update: None becomes a new
      empty dict, a complex object (a GenericContainer too) a copy of its
      `_data`, which fails as CopyError says; anything else is kept. */
  function SettleData(data: Value): (r: Result<Value>)
    ensures r.Ok? && (data.PyNone? || data.Complex? || data.Generic?) ==> r.value.Dict?
  {
    if data.PyNone? then Ok(Dict([]))
    else if data.Complex? || data.Generic? then
      (if CopyError(data).Some? then Err(CopyError(data).value) else Ok(Dict(EntriesOf(data))))
    else Ok(data)
  }

  /** `if hasattr(data, 'update'): data.update(kwargs)`: a dict or a typed dict
      takes the keywords, other data ignores them. */
  function UpdateData(data: Value, kw: seq<(Value, Value)>): Result<Value>
  {
    if data.Dict? then Ok(Dict(Update(data.entries, kw)))
    else if data.TypedDictObj? then
      match TypedUpdate(data.keyType, data.itemType, data.entries, kw)
      case Err(e) => Err(e)
      case Ok(es) => Ok(TypedDictObj(data.keyType, data.itemType, es))
    else Ok(data)
  }

  /** `cls(data, **kwargs)` for a complex-object class
      (resttypes/cobjects.py:131-162). */
  function ComplexNew(c: ComplexClass, data: Value, kwargs: seq<(string, Value)>): Result<Value>
  {
    match KwargsToStr(kwargs, [])
    case Err(e) => Err(e)
    case Ok(kw) =>
      match SettleData(data)
      case Err(e) => Err(e)
      case Ok(d) =>
        match UpdateData(d, kw)
        case Err(e) => Err(e)
        case Ok(d') => ComplexBuild(c, d')
  }

  /** `GenericContainer(data, **kwargs)`: the same steps, with a check that
      always passes and GenericContainer's own construct_data. */
  function GenericNew(data: Value, kwargs: seq<(string, Value)>): Result<Value>
  {
    match KwargsToStr(kwargs, [])
    case Err(e) => Err(e)
    case Ok(kw) =>
      match SettleData(data)
      case Err(e) => Err(e)
      case Ok(d) =>
        match UpdateData(d, kw)
        case Err(e) => Err(e)
        case Ok(d') => Ok(Generic(GenericWrap(d')))
  }

  /** The keywords fail exactly when one of them holds a non-ASCII byte string. */
  lemma {:induction false} KwargsFail(kwargs: seq<(string, Value)>, acc: seq<(Value, Value)>)
    ensures KwargsToStr(kwargs, acc).Err? <==> exists i :: 0 <= i < |kwargs| && HasNonAsciiBytes(kwargs[i].1)
    decreases |kwargs|
  {
    if |kwargs| > 0 {
      ToStrLaws(kwargs[0].1);
      if ToStr(kwargs[0].1).Ok? {
        KwargsFail(kwargs[1..], DictPut(acc, Str(RStrip(kwargs[0].0, '_')), ToStr(kwargs[0].1).value));
        if exists i :: 0 <= i < |kwargs| && HasNonAsciiBytes(kwargs[i].1) {
          var i :| 0 <= i < |kwargs| && HasNonAsciiBytes(kwargs[i].1);
          assert i > 0 && HasNonAsciiBytes(kwargs[1..][i - 1].1);
        }
      }
    }
  }

  /** The keyword dict has distinct keys: each keyword's name without its
      trailing underscores, and nothing else. */
  lemma {:induction false} KwargsKeys(kwargs: seq<(string, Value)>, acc: seq<(Value, Value)>)
    requires UniqueKeys(acc) && KwargsToStr(kwargs, acc).Ok?
    ensures UniqueKeys(KwargsToStr(kwargs, acc).value)
    ensures forall i :: 0 <= i < |kwargs| ==> Str(RStrip(kwargs[i].0, '_')) in Keys(KwargsToStr(kwargs, acc).value)
    ensures forall x :: x in Keys(KwargsToStr(kwargs, acc).value) ==>
              x in Keys(acc) || exists i :: 0 <= i < |kwargs| && x == Str(RStrip(kwargs[i].0, '_'))
    decreases |kwargs|
  {
    if |kwargs| > 0 {
      var k := Str(RStrip(kwargs[0].0, '_'));
      var y := ToStr(kwargs[0].1).value;
      var acc' := DictPut(acc, k, y);
      var r := KwargsToStr(kwargs, acc).value;
      DictPutUnique(acc, k, y);
      DictPutKeys(acc, k, y);
      KwargsKeys(kwargs[1..], acc');
      KwargsKeepsKeys(kwargs[1..], acc');
      assert k in Keys(acc');
      forall i | 0 <= i < |kwargs|
        ensures Str(RStrip(kwargs[i].0, '_')) in Keys(r)
      {
        if i > 0 {
          assert kwargs[i] == kwargs[1..][i - 1];
        }
      }
      forall x | x in Keys(r)
        ensures x in Keys(acc) || exists i :: 0 <= i < |kwargs| && x == Str(RStrip(kwargs[i].0, '_'))
      {
        if x !in Keys(acc') {
          var i :| 0 <= i < |kwargs[1..]| && x == Str(RStrip(kwargs[1..][i].0, '_'));
          assert x == Str(RStrip(kwargs[i + 1].0, '_'));
        }
      }
    }
  }

  /** Keys already in the accumulator stay. */
  lemma {:induction false} KwargsKeepsKeys(kwargs: seq<(string, Value)>, acc: seq<(Value, Value)>)
    requires KwargsToStr(kwargs, acc).Ok?
    ensures forall x :: x in Keys(acc) ==> x in Keys(KwargsToStr(kwargs, acc).value)
    decreases |kwargs|
  {
    if |kwargs| > 0 {
      var k := Str(RStrip(kwargs[0].0, '_'));
      var y := ToStr(kwargs[0].1).value;
      DictPutKeys(acc, k, y);
      KwargsKeepsKeys(kwargs[1..], DictPut(acc, k, y));
    }
  }

  /** After `d.update(other)`, a key of `other` holds `other`'s value and any
      other key what it held before: keyword values override the data. */
  lemma {:induction false} UpdateGet(es: seq<(Value, Value)>, other: seq<(Value, Value)>, k: Value)
    requires UniqueKeys(other)
    ensures DictGet(Update(es, other), k) == if k in Keys(other) then DictGet(other, k) else DictGet(es, k)
    decreases |other|
  {
    if |other| > 0 {
      var es' := DictPut(es, other[0].0, other[0].1);
      assert UniqueKeys(other[1..]);
      UpdateGet(es', other[1..], k);
      DictPutGet(es, other[0].0, other[0].1, k);
      assert Keys(other) == [other[0].0] + Keys(other[1..]);
      if k == other[0].0 {
        assert k !in Keys(other[1..]);
      }
    }
  }

  /** The acceptance loop reads only the entries. */
  lemma {:induction false} SameEntriesAccept(c: ComplexClass, v: Value, w: Value, j: nat, req: set<string>, opt: set<string>)
    requires HasItems(v) && HasItems(w) && EntriesOf(v) == EntriesOf(w) && j <= |EntriesOf(v)|
    ensures ComplexEntriesAccept(c, v, j, req, opt) == ComplexEntriesAccept(c, w, j, req, opt)
    decreases |EntriesOf(v)| - j
  {
    var es := EntriesOf(v);
    if j < |es| {
      var name := KeyName(es[j].0);
      if name.Some? {
        var n := name.value;
        SameEntriesAccept(c, v, w, j + 1, if n in req then req - {n} else req, if n in req then opt else opt - {n});
      }
      SameAcceptAt(c, v, w, j, req, opt);
    }
  }

  /** One entry of two acceptance loops over the same entries, given that
      they agree from the next entry on. */
  lemma SameAcceptAt(c: ComplexClass, v: Value, w: Value, j: nat, req: set<string>, opt: set<string>)
    requires HasItems(v) && HasItems(w) && EntriesOf(v) == EntriesOf(w) && j < |EntriesOf(v)|
    requires var name := KeyName(EntriesOf(v)[j].0);
             name.Some? ==>
               var n := name.value;
               ComplexEntriesAccept(c, v, j + 1, if n in req then req - {n} else req, if n in req then opt else opt - {n})
               == ComplexEntriesAccept(c, w, j + 1, if n in req then req - {n} else req, if n in req then opt else opt - {n})
    ensures ComplexEntriesAccept(c, v, j, req, opt) == ComplexEntriesAccept(c, w, j, req, opt)
  {
    var es := EntriesOf(v);
    var name := KeyName(es[j].0);
    if name.None? || (name.value !in req && name.value !in opt) || name.value !in SchemaOf(c).types {
      AcceptRefused(c, v, j, req, opt);
      AcceptRefused(c, w, j, req, opt);
    } else {
      var n := name.value;
      var a := IsAcceptable(es[j].1, SchemaOf(c).types[n], Noneable);
      AcceptField(c, v, j, req, opt, n, a);
      AcceptField(c, w, j, req, opt, n, a);
    }
  }

  /** The error-collecting loop reads only the entries. */
  lemma {:induction false} SameEntriesFind(c: ComplexClass, v: Value, w: Value, j: nat, req: set<string>, opt: set<string>,
                                           errors: set<(Value, Value, Reason)>)
    requires HasItems(v) && HasItems(w) && EntriesOf(v) == EntriesOf(w) && j <= |EntriesOf(v)|
    ensures FindErroneousFrom(c, v, j, req, opt, errors) == FindErroneousFrom(c, w, j, req, opt, errors)
    decreases |EntriesOf(v)| - j
  {
    var es := EntriesOf(v);
    if j < |es| {
      var (k, x) := es[j];
      var name := KeyName(k);
      if name.None? || name.value !in SchemaOf(c).types {
        SameEntriesFind(c, v, w, j + 1, req, opt, errors + {(k, x, NotInSpec)});
      } else {
        var n := name.value;
        var req' := if n in req then req - {n} else req;
        var opt' := if n in req then opt else opt - {n};
        SameEntriesFind(c, v, w, j + 1, req', opt', errors);
        SameEntriesFind(c, v, w, j + 1, req', opt', errors + {(k, x, WrongType(SchemaOf(c).types[n]))});
      }
      SameFindAt(c, v, w, j, req, opt, errors);
    }
  }

  /** One entry of two error-collecting loops over the same entries, given
      that they agree from the next entry on. */
  lemma SameFindAt(c: ComplexClass, v: Value, w: Value, j: nat, req: set<string>, opt: set<string>,
                   errors: set<(Value, Value, Reason)>)
    requires HasItems(v) && HasItems(w) && EntriesOf(v) == EntriesOf(w) && j < |EntriesOf(v)|
    requires var (k, x) := EntriesOf(v)[j];
             var name := KeyName(k);
             if name.None? || name.value !in SchemaOf(c).types then
               FindErroneousFrom(c, v, j + 1, req, opt, errors + {(k, x, NotInSpec)})
               == FindErroneousFrom(c, w, j + 1, req, opt, errors + {(k, x, NotInSpec)})
             else
               var n := name.value;
               var req' := if n in req then req - {n} else req;
               var opt' := if n in req then opt else opt - {n};
               FindErroneousFrom(c, v, j + 1, req', opt', errors) == FindErroneousFrom(c, w, j + 1, req', opt', errors)
               && FindErroneousFrom(c, v, j + 1, req', opt', errors + {(k, x, WrongType(SchemaOf(c).types[n]))})
                  == FindErroneousFrom(c, w, j + 1, req', opt', errors + {(k, x, WrongType(SchemaOf(c).types[n]))})
    ensures FindErroneousFrom(c, v, j, req, opt, errors) == FindErroneousFrom(c, w, j, req, opt, errors)
  {
    var es := EntriesOf(v);
    var name := KeyName(es[j].0);
    if name.None? || name.value !in SchemaOf(c).types {
      FindUnknown(c, v, j, req, opt, errors);
      FindUnknown(c, w, j, req, opt, errors);
    } else {
      var n := name.value;
      var a := IsAcceptable(es[j].1, SchemaOf(c).types[n], Noneable);
      FindField(c, v, j, req, opt, errors, n, a);
      FindField(c, w, j, req, opt, errors, n, a);
    }
  }

  /** The conversion loop reads only the entries. */
  lemma {:induction false} SameEntriesConstruct(c: ComplexClass, v: Value, w: Value, j: nat, acc: seq<(Value, Value)>)
    requires HasItems(v) && HasItems(w) && EntriesOf(v) == EntriesOf(w) && j <= |EntriesOf(v)|
    ensures ConstructEntries(c, v, j, acc) == ConstructEntries(c, w, j, acc)
    decreases |EntriesOf(v)| - j
  {
    var es := EntriesOf(v);
    if j < |es| {
      var name := KeyName(es[j].0);
      if name.Some? && name.value in SchemaOf(c).types {
        var y := ConstructData(es[j].1, SchemaOf(c).types[name.value], Noneable);
        if y.Ok? {
          SameEntriesConstruct(c, v, w, j + 1, acc + [(es[j].0, y.value)]);
        }
      }
      SameConstructAt(c, v, w, j, acc);
    }
  }

  /** One entry of two conversion loops over the same entries, given that
      they agree from the next entry on. */
  lemma SameConstructAt(c: ComplexClass, v: Value, w: Value, j: nat, acc: seq<(Value, Value)>)
    requires HasItems(v) && HasItems(w) && EntriesOf(v) == EntriesOf(w) && j < |EntriesOf(v)|
    requires var name := KeyName(EntriesOf(v)[j].0);
             name.Some? && name.value in SchemaOf(c).types ==>
               var y := ConstructData(EntriesOf(v)[j].1, SchemaOf(c).types[name.value], Noneable);
               y.Ok? ==> ConstructEntries(c, v, j + 1, acc + [(EntriesOf(v)[j].0, y.value)])
                         == ConstructEntries(c, w, j + 1, acc + [(EntriesOf(v)[j].0, y.value)])
    ensures ConstructEntries(c, v, j, acc) == ConstructEntries(c, w, j, acc)
  {
    var es := EntriesOf(v);
    var name := KeyName(es[j].0);
    if name.None? || name.value !in SchemaOf(c).types {
      ConstructUnknown(c, v, j, acc);
      ConstructUnknown(c, w, j, acc);
    } else {
      var n := name.value;
      var y := ConstructData(es[j].1, SchemaOf(c).types[n], Noneable);
      ConstructField(c, v, j, acc, n, y);
      ConstructField(c, w, j, acc, n, y);
    }
  }

  /** Building from data that holds the same entries gives the same result,
      whichever container holds them: checking a complex object's entries is
      checking the copy of its `_data`. */
  lemma SameEntriesBuild(c: ComplexClass, v: Value, w: Value)
    requires HasItems(v) && HasItems(w) && EntriesOf(v) == EntriesOf(w)
    requires !v.TypedDictObj? && !w.TypedDictObj?
    ensures ComplexBuild(c, v) == ComplexBuild(c, w)
  {
    SameAccepts(c, v, w);
    SameFinds(c, v, w);
    SameConstructs(c, v, w);
    SameBuildFrom(c, v, w);
  }

  lemma SameAccepts(c: ComplexClass, v: Value, w: Value)
    requires HasItems(v) && HasItems(w) && EntriesOf(v) == EntriesOf(w)
    ensures ComplexAccepts(c, v) == ComplexAccepts(c, w)
  {
    SameEntriesAccept(c, v, w, 0, SchemaOf(c).required, SchemaOf(c).optional);
  }

  lemma SameFinds(c: ComplexClass, v: Value, w: Value)
    requires HasItems(v) && HasItems(w) && EntriesOf(v) == EntriesOf(w)
    ensures FindErroneous(c, v) == FindErroneous(c, w)
  {
    SameEntriesFind(c, v, w, 0, SchemaOf(c).required, SchemaOf(c).optional, {});
  }

  lemma SameConstructs(c: ComplexClass, v: Value, w: Value)
    requires HasItems(v) && HasItems(w) && EntriesOf(v) == EntriesOf(w)
    requires !v.TypedDictObj? && !w.TypedDictObj?
    ensures ComplexConstruct(c, v) == ComplexConstruct(c, w)
  {
    SameEntriesConstruct(c, v, w, 0, []);
  }

  /** Building depends on the data only through the check, the search and
      the conversion. */
  lemma SameBuildFrom(c: ComplexClass, v: Value, w: Value)
    requires ComplexAccepts(c, v) == ComplexAccepts(c, w)
    requires FindErroneous(c, v) == FindErroneous(c, w)
    requires ComplexConstruct(c, v) == ComplexConstruct(c, w)
    ensures ComplexBuild(c, v) == ComplexBuild(c, w)
  {
  }

  /** Without keyword arguments the constructor is the conversion
      construct_data applies to a complex-object field. */
  lemma ComplexNewWithoutKeywords(c: ComplexClass, v: Value)
    ensures ComplexNew(c, v, []) == ComplexCreate(c, v)
  {
    if v.PyNone? {
      ComplexAcceptsExactly(c, Dict([]));
      assert ComplexBuild(c, Dict([])) == Ok(Complex(c, []));
    } else if (v.Complex? || v.Generic?) && HasItems(v) {
      SameEntriesBuild(c, v, Dict(EntriesOf(v)));
    }
  }

  /** Without keyword arguments GenericContainer's constructor is the
      conversion construct_data applies to a GenericContainer field. */
  lemma GenericNewWithoutKeywords(v: Value)
    ensures GenericNew(v, []) == GenericCreate(v)
  {
    if v.PyNone? {
      assert GenericWrap(Dict([])) == Dict([]);
    }
  }

  // ------------------------------------------------------------ filter lists

  predicate IsCondition(v: Value) {
    v.Complex? && v.cls == FilterCondition
  }

  /** A FilterCondition or a FilterList: the operands `&` is meant for. */
  predicate IsFilter(v: Value) {
    IsCondition(v) || v.FilterList?
  }

  /** The conditions a filter stands for, in order. */
  function Conditions(v: Value): seq<Value>
    requires IsFilter(v)
  {
    if v.FilterList? then v.items else [v]
  }

  /** What building the message `other.__class__.name` raises: a
      complex-object class declaring a field `name` answers with a
      ComplexField, so the TypeError goes out; any other class has no
      attribute `name` and AttributeError is raised instead. */
  function OperandError(b: Value): (e: Exc)
    ensures e == TypeError || e == AttributeError
  {
    if b.Complex? && "name" in SchemaOf(b.cls).all then TypeError else AttributeError
  }

  /** `a & b` as FilterList.__and__ and FilterConditionMixin.__and__ are
      written (resttypes/cobjects.py:15-40): adding to a list with `+` gives a
      plain list, so only two single conditions make a FilterList. */
  function AndAsWritten(a: Value, b: Value): (r: Result<Value>)
    ensures r.Ok? <==> IsFilter(a) && IsFilter(b)
    ensures r.Ok? ==> (r.value.List? || r.value.FilterList?) && r.value.items == Conditions(a) + Conditions(b)
    ensures r.Ok? && r.value.FilterList? ==> IsCondition(a) && IsCondition(b)
    ensures r.Err? && IsFilter(a) ==> r.error == OperandError(b)
    ensures !IsFilter(a) ==> r == Err(TypeError)
  {
    if a.FilterList? then
      if IsCondition(b) then Ok(List(a.items + [b]))
      else if b.FilterList? then Ok(List(a.items + b.items))
      else Err(OperandError(b))
    else if IsCondition(a) then
      if IsCondition(b) then Ok(FilterList([a, b]))
      else if b.FilterList? then Ok(List([a] + b.items))
      else Err(OperandError(b))
    else Err(TypeError)
  }

  /** `a & b` as intended: any two filters join into a FilterList, and any
      other operand is refused with TypeError. */
  function And(a: Value, b: Value): (r: Result<Value>)
    ensures r.Ok? <==> IsFilter(a) && IsFilter(b)
    ensures r.Err? ==> r.error == TypeError
  {
    if a.FilterList? then
      if IsCondition(b) then Ok(FilterList(a.items + [b]))
      else if b.FilterList? then Ok(FilterList(a.items + b.items))
      else Err(TypeError)
    else if IsCondition(a) then
      if IsCondition(b) then Ok(FilterList([a, b]))
      else if b.FilterList? then Ok(FilterList([a] + b.items))
      else Err(TypeError)
    else Err(TypeError)
  }

  /** Joining two filters gives a FilterList of their conditions in order. */
  lemma AndJoins(a: Value, b: Value)
    requires IsFilter(a) && IsFilter(b)
    ensures And(a, b) == Ok(FilterList(Conditions(a) + Conditions(b)))
  {
    if IsCondition(a) && IsCondition(b) {
      assert [a] + [b] == [a, b];
    }
  }

  /** Joining is associative, so `a & b & c` holds the same conditions however
      it is grouped. */
  lemma AndAssociative(a: Value, b: Value, c: Value)
    requires IsFilter(a) && IsFilter(b) && IsFilter(c)
    ensures And(a, b).Ok? && And(b, c).Ok?
    ensures And(And(a, b).value, c) == And(a, And(b, c).value)
  {
    AndJoins(a, b);
    AndJoins(b, c);
    AndJoins(And(a, b).value, c);
    AndJoins(a, And(b, c).value);
    assert Conditions(a) + Conditions(b) + Conditions(c) == Conditions(a) + (Conditions(b) + Conditions(c));
  }

  /** `first & rest[0] & rest[1] & ...`, grouped to the left as Python does. */
  function Chain(first: Value, rest: seq<Value>): Result<Value>
    decreases |rest|
  {
    if |rest| == 0 then Ok(first)
    else
      match And(first, rest[0])
      case Err(e) => Err(e)
      case Ok(f) => Chain(f, rest[1..])
  }

  /** The same chain with the operators as written. */
  function ChainAsWritten(first: Value, rest: seq<Value>): Result<Value>
    decreases |rest|
  {
    if |rest| == 0 then Ok(first)
    else
      match AndAsWritten(first, rest[0])
      case Err(e) => Err(e)
      case Ok(f) => ChainAsWritten(f, rest[1..])
  }

  /** Chaining conditions onto a filter list appends them in order. */
  lemma {:induction false} ChainAppends(xs: seq<Value>, rest: seq<Value>)
    requires forall i :: 0 <= i < |rest| ==> IsCondition(rest[i])
    ensures Chain(FilterList(xs), rest) == Ok(FilterList(xs + rest))
    decreases |rest|
  {
    if |rest| == 0 {
      assert xs + rest == xs;
    } else {
      ChainAppends(xs + [rest[0]], rest[1..]);
      assert xs + [rest[0]] + rest[1..] == xs + rest;
    }
  }

  /** Any number of conditions, two or more, joined with `&` make one
      FilterList holding them all in order. */
  lemma ChainOfConditions(conds: seq<Value>)
    requires |conds| >= 2 && forall i :: 0 <= i < |conds| ==> IsCondition(conds[i])
    ensures Chain(conds[0], conds[1..]) == Ok(FilterList(conds))
  {
    assert And(conds[0], conds[1]) == Ok(FilterList([conds[0], conds[1]]));
    ChainAppends([conds[0], conds[1]], conds[2..]);
    assert [conds[0], conds[1]] + conds[2..] == conds;
  }

  /** As written, a third condition turns the FilterList into a plain list,
      and a fourth cannot be joined at all. */
  lemma ChainAsWrittenFails(a: Value, b: Value, c: Value, d: Value)
    requires IsCondition(a) && IsCondition(b) && IsCondition(c) && IsCondition(d)
    ensures ChainAsWritten(a, [b, c]) == Ok(List([a, b, c]))
    ensures ChainAsWritten(a, [b, c, d]) == Err(TypeError)
    ensures Chain(a, [b, c, d]) == Ok(FilterList([a, b, c, d]))
  {
    assert AndAsWritten(a, b) == Ok(FilterList([a, b]));
    assert [a, b] + [c] == [a, b, c];
    assert AndAsWritten(FilterList([a, b]), c) == Ok(List([a, b, c]));
    assert [b, c, d][1..] == [c, d] && [c, d][1..] == [d];
    assert [b, c][1..] == [c];
    assert ChainAsWritten(List([a, b, c]), [d]) == Err(TypeError);
    assert ChainAsWritten(FilterList([a, b]), [c, d]) == ChainAsWritten(List([a, b, c]), [d]);
    assert ChainAsWritten(List([a, b, c]), []) == Ok(List([a, b, c]));
    assert ChainAsWritten(FilterList([a, b]), [c]) == ChainAsWritten(List([a, b, c]), []);
    ChainOfConditions([a, b, c, d]);
    assert [a, b, c, d][1..] == [b, c, d];
  }

  /** As written, a filter joined with anything else raises AttributeError
      while the TypeError's message is being built, for every class of this
      model. */
  lemma AndAsWrittenWrongError(a: Value, b: Value)
    requires IsFilter(a) && !IsFilter(b)
    ensures AndAsWritten(a, b) == Err(AttributeError)
    ensures And(a, b) == Err(TypeError)
  {
    if b.Complex? {
      match b.cls
      case FilterCondition =>
      case SearchFilter =>
      case QueryLimit =>
      case OrderedField =>
      case CallbackParams =>
      case PseudoResource =>
      case SimpleResource =>
      case ListResult =>
    }
  }

  // ------------------------------------------------------------ ComplexField

  /** `Cls.item` on a complex-object class (ComplexMeta.__getattr__,
      resttypes/cobjects.py:112-121): the ComplexField of a declared field,
      represented by the field's name. */
  function FieldOf(c: ComplexClass, item: string): (r: Result<string>)
    ensures r.Ok? <==> item in SchemaOf(c).all
    ensures r.Ok? ==> r.value == item
    ensures r.Err? ==> r.error == AttributeError
  {
    if item in SchemaOf(c).all then Ok(item) else Err(AttributeError)
  }

  /** The comparisons and tests a ComplexField offers (resttypes/cobjects.py:59-107). */
  datatype Operator =
    | StartsWith | EndsWith | NotEndsWith | NotStartsWith
    | Eq | Ne | Gt | Lt | Ge | Le
    | Contains | Between | NotContains | NotBetween

  /** The condition each operator asks for; `>` and `<` against a datetime
      mean later and earlier than. */
  function ConditionFor(op: Operator, other: Value): Member
  {
    Member(Condition,
      match op
      case StartsWith => "STARTS_WITH"
      case EndsWith => "ENDS_WITH"
      case NotEndsWith => "NOT_ENDS_WITH"
      case NotStartsWith => "NOT_STARTS_WITH"
      case Eq => "IS_EQUAL_TO"
      case Ne => "IS_NOT_EQUAL_TO"
      case Gt => if other.Time? then "LATER_THAN" else "IS_GREATER_THAN"
      case Lt => if other.Time? then "EARLIER_THAN" else "IS_LESS_THAN"
      case Ge => "IS_GREATER_THAN_OR_EQUAL_TO"
      case Le => "IS_LESS_THAN_OR_EQUAL_TO"
      case Contains => "CONTAINS"
      case Between => "BETWEEN"
      case NotContains => "NOT_CONTAINS"
      case NotBetween => "NOT_BETWEEN")
  }

  /** Every operator asks for a condition of the enum, and different operators
      ask for different conditions. */
  lemma ConditionForDistinct(op1: Operator, op2: Operator, other: Value)
    ensures IsMember(ConditionFor(op1, other))
    ensures op1 != op2 ==> ConditionFor(op1, other) != ConditionFor(op2, other)
  {
    var n := ConditionFor(op1, other).name;
    DefinedName(Condition, n, n);
  }

  /** The operands of a condition: a list gives its elements, anything else
      stands alone. */
  function Operands(other: Value): (r: seq<Value>)
    ensures other.List? || other.FilterList? ==> r == other.items
    ensures !(other.List? || other.FilterList?) ==> r == [other]
  {
    if other.List? || other.FilterList? then other.items else [other]
  }

  /** Operands whose text `str` gives: None, booleans, integers, strings and
      members of an enum; a datetime is untyped to text first. */
  predicate Printable(v: Value) {
    v.PyNone? || v.Bool? || v.Int? || v.Str? || v.Unicode? || (v.EnumMember? && IsMember(v.m))
    || (v.Time? && Valid(v.t))
  }

  /** The field's untype as written: `ComplexObject.untype` called through its
      function with no instance (resttypes/cobjects.py:164-173). A datetime is
      written as text with the offset `+0000`; anything else reaches
      `Typed.untype` with one argument too many (typed/__init__.py:288) and
      raises TypeError. */
  function UntypeAsWritten(v: Value): (r: Result<Value>)
    requires v.Time? ==> Valid(v.t)
    ensures !v.Time? ==> r == Err(TypeError)
  {
    if v.Time? then
      match Strftime(v.t)
      case Err(e) => Err(e)
      case Ok(s) => Ok(Str(s + "+0000"))
    else Err(TypeError)
  }

  /** The untype the field is meant to apply: a datetime as above, anything
      else as it is. */
  function Untype(v: Value): (r: Result<Value>)
    requires v.Time? ==> Valid(v.t)
    ensures v.Time? ==> r == UntypeAsWritten(v)
    ensures !v.Time? ==> r == Ok(v)
  {
    if v.Time? then
      match Strftime(v.t)
      case Err(e) => Err(e)
      case Ok(s) => Ok(Str(s + "+0000"))
    else Ok(v)
  }

  /** `str(v)` on a printable value other than a datetime. */
  function StrOf(v: Value): (r: Result<string>)
    requires Printable(v) && !v.Time?
    ensures r.Err? <==> v.Unicode? && !IsAscii(v.u)
    ensures r.Err? ==> r.error == UnicodeError
    ensures v.Str? ==> r == Ok(v.s)
    ensures v.EnumMember? ==> r == Ok(v.m.name)
  {
    match v
    case PyNone => Ok("None")
    case Bool(b) => Ok(if b then "True" else "False")
    case Int(i) => Ok(IntToStr(i))
    case Str(s) => Ok(s)
    case Unicode(u) => if IsAscii(u) then Ok(u) else Err(UnicodeError)
    case EnumMember(m) => Ok(Enums.Str(m))
  }

  /** The untype as written or as intended. */
  function UntypeBy(v: Value, asWritten: bool): (r: Result<Value>)
    requires Printable(v)
    ensures r.Ok? ==> Printable(r.value) && !r.value.Time?
  {
    if asWritten then UntypeAsWritten(v) else Untype(v)
  }

  /** `map(self.untype, values)`: every operand untyped, the first failure
      raised. */
  function UntypeEach(vs: seq<Value>, asWritten: bool): (r: Result<seq<Value>>)
    requires forall i :: 0 <= i < |vs| ==> Printable(vs[i])
    ensures r.Ok? ==> forall i :: 0 <= i < |r.value| ==> Printable(r.value[i]) && !r.value[i].Time?
  {
    if |vs| == 0 then Ok([])
    else
      match UntypeBy(vs[0], asWritten)
      case Err(e) => Err(e)
      case Ok(u) =>
        match UntypeEach(vs[1..], asWritten)
        case Err(e) => Err(e)
        case Ok(us) => Ok([u] + us)
  }

  /** What `r` promises as the untyped operands `vs`: it succeeds exactly
      when every operand untypes, holds each one's untyped value in order,
      and otherwise raises the failure of one of them. */
  predicate UntypedEach(vs: seq<Value>, asWritten: bool, r: Result<seq<Value>>)
    requires forall i :: 0 <= i < |vs| ==> Printable(vs[i])
  {
    && (r.Ok? <==> forall i :: 0 <= i < |vs| ==> UntypeBy(vs[i], asWritten).Ok?)
    && (r.Ok? ==> |r.value| == |vs| && forall i :: 0 <= i < |vs| ==> UntypeBy(vs[i], asWritten) == Ok(r.value[i]))
    && (r.Err? ==> exists i :: 0 <= i < |vs| && UntypeBy(vs[i], asWritten) == Err(r.error))
  }

  /** Untyping every operand keeps the promise above. */
  lemma {:induction false} UntypeEachLaws(vs: seq<Value>, asWritten: bool)
    requires forall i :: 0 <= i < |vs| ==> Printable(vs[i])
    ensures UntypedEach(vs, asWritten, UntypeEach(vs, asWritten))
  {
    if |vs| > 0 {
      UntypeEachLaws(vs[1..], asWritten);
      UntypeEachAt(vs, asWritten);
    }
  }

  /** The first operand followed by the untyped rest. */
  lemma UntypeEachAt(vs: seq<Value>, asWritten: bool)
    requires |vs| > 0 && forall i :: 0 <= i < |vs| ==> Printable(vs[i])
    requires UntypedEach(vs[1..], asWritten, UntypeEach(vs[1..], asWritten))
    ensures UntypedEach(vs, asWritten, UntypeEach(vs, asWritten))
  {
    UntypeEachOkAt(vs, asWritten);
    UntypeEachValuesAt(vs, asWritten);
    UntypeEachErrAt(vs, asWritten);
  }

  lemma UntypeEachOkAt(vs: seq<Value>, asWritten: bool)
    requires |vs| > 0 && forall i :: 0 <= i < |vs| ==> Printable(vs[i])
    requires UntypedEach(vs[1..], asWritten, UntypeEach(vs[1..], asWritten))
    ensures UntypeEach(vs, asWritten).Ok? <==> forall i :: 0 <= i < |vs| ==> UntypeBy(vs[i], asWritten).Ok?
  {
    assert forall i :: 1 <= i < |vs| ==> vs[i] == vs[1..][i - 1];
  }

  lemma UntypeEachValuesAt(vs: seq<Value>, asWritten: bool)
    requires |vs| > 0 && forall i :: 0 <= i < |vs| ==> Printable(vs[i])
    requires UntypedEach(vs[1..], asWritten, UntypeEach(vs[1..], asWritten))
    ensures UntypeEach(vs, asWritten).Ok? ==>
              |UntypeEach(vs, asWritten).value| == |vs|
              && forall i :: 0 <= i < |vs| ==> UntypeBy(vs[i], asWritten) == Ok(UntypeEach(vs, asWritten).value[i])
  {
    var r := UntypeEach(vs, asWritten);
    if r.Ok? {
      var u := UntypeBy(vs[0], asWritten).value;
      var us := UntypeEach(vs[1..], asWritten).value;
      assert r.value == [u] + us;
      forall i | 0 <= i < |vs|
        ensures UntypeBy(vs[i], asWritten) == Ok(r.value[i])
      {
        if i > 0 {
          assert vs[i] == vs[1..][i - 1] && r.value[i] == us[i - 1];
        }
      }
    }
  }

  lemma UntypeEachErrAt(vs: seq<Value>, asWritten: bool)
    requires |vs| > 0 && forall i :: 0 <= i < |vs| ==> Printable(vs[i])
    requires UntypedEach(vs[1..], asWritten, UntypeEach(vs[1..], asWritten))
    ensures UntypeEach(vs, asWritten).Err? ==>
              exists i :: 0 <= i < |vs| && UntypeBy(vs[i], asWritten) == Err(UntypeEach(vs, asWritten).error)
  {
    var rest := UntypeEach(vs[1..], asWritten);
    if UntypeBy(vs[0], asWritten).Ok? && rest.Err? {
      var i :| 0 <= i < |vs[1..]| && UntypeBy(vs[1..][i], asWritten) == Err(rest.error);
      assert UntypeBy(vs[i + 1], asWritten) == Err(rest.error);
    }
  }

  /** `map(str, untyped)`: the text of every untyped operand, the first failure
      raised. */
  function StrEach(vs: seq<Value>): (r: Result<seq<Value>>)
    requires forall i :: 0 <= i < |vs| ==> Printable(vs[i]) && !vs[i].Time?
    ensures r.Ok? <==> forall i :: 0 <= i < |vs| ==> StrOf(vs[i]).Ok?
    ensures r.Ok? ==> |r.value| == |vs| && forall i :: 0 <= i < |vs| ==> r.value[i] == Str(StrOf(vs[i]).value)
  {
    if |vs| == 0 then Ok([])
    else
      match StrOf(vs[0])
      case Err(e) => Err(e)
      case Ok(s) =>
        match StrEach(vs[1..])
        case Err(e) => Err(e)
        case Ok(ss) => Ok([Str(s)] + ss)
  }

  /** `ComplexField._condition` (resttypes/cobjects.py:51-57) with the field's
      untype chosen by `asWritten`: the operands are untyped, turned into text
      and given, with the field's name and the condition, to FilterCondition's
      constructor. */
  function MakeCondition(name: string, cond: Member, other: Value, asWritten: bool): Result<Value>
    requires forall i :: 0 <= i < |Operands(other)| ==> Printable(Operands(other)[i])
  {
    match UntypeEach(Operands(other), asWritten)
    case Err(e) => Err(e)
    case Ok(us) =>
      match StrEach(us)
      case Err(e) => Err(e)
      case Ok(strs) =>
        ComplexNew(FilterCondition, PyNone,
                   [("field", Str(name)), ("condition", EnumMember(cond)), ("value", List(strs))])
  }

  /** `Cls.item <op> other` with the field's untype as written. */
  function ConditionAsWritten(c: ComplexClass, item: string, op: Operator, other: Value): Result<Value>
    requires forall i :: 0 <= i < |Operands(other)| ==> Printable(Operands(other)[i])
  {
    match FieldOf(c, item)
    case Err(e) => Err(e)
    case Ok(name) => MakeCondition(name, ConditionFor(op, other), other, true)
  }

  /** `Cls.item <op> other` with the untype the field is meant to apply. */
  function FieldCondition(c: ComplexClass, item: string, op: Operator, other: Value): Result<Value>
    requires forall i :: 0 <= i < |Operands(other)| ==> Printable(Operands(other)[i])
  {
    match FieldOf(c, item)
    case Err(e) => Err(e)
    case Ok(name) => MakeCondition(name, ConditionFor(op, other), other, false)
  }

  /** The text an operand stands for in a condition, when it has one. */
  function Rendered(v: Value): Option<string>
    requires Printable(v)
  {
    match Untype(v)
    case Err(_) => None
    case Ok(u) => (match StrOf(u) case Err(_) => None case Ok(s) => Some(s))
  }

  /** Field names are ASCII identifiers. */
  lemma FieldNamesAscii(c: ComplexClass, n: string)
    requires n in SchemaOf(c).all
    ensures IsAscii(n)
  {
    match c
    case FilterCondition => NamesAsciiFilterCondition(n);
    case SearchFilter => NamesAsciiSearchFilter(n);
    case QueryLimit => NamesAsciiQueryLimit(n);
    case OrderedField => NamesAsciiOrderedField(n);
    case CallbackParams => NamesAsciiCallbackParams(n);
    case PseudoResource => NamesAsciiPseudoResource(n);
    case SimpleResource => NamesAsciiSimpleResource(n);
    case ListResult => NamesAsciiListResult(n);
  }

  lemma NamesAsciiFilterCondition(n: string)
    requires n in {"field", "condition", "value"}
    ensures IsAscii(n)
  {
  }

  lemma NamesAsciiSearchFilter(n: string)
    requires n in {"filterConditions"}
    ensures IsAscii(n)
  {
  }

  lemma NamesAsciiQueryLimit(n: string)
    requires n in {"orderBy", "to", "maxRecords", "from", "loadChildren"}
    ensures IsAscii(n)
  {
  }

  lemma NamesAsciiOrderedField(n: string)
    requires n in {"aggregationFunction", "fieldName", "sortOrder"}
    ensures IsAscii(n)
  {
  }

  lemma NamesAsciiCallbackParams(n: string)
    requires n in {"hash"}
    ensures IsAscii(n)
  {
  }

  lemma NamesAsciiPseudoResource(n: string)
    requires n in {"resourceType"}
    ensures IsAscii(n)
  {
  }

  lemma NamesAsciiSimpleResource(n: string)
    requires n in {"resourceType", "resourceName", "resourceUUID"}
    ensures IsAscii(n)
  {
  }

  lemma NamesAsciiListResult(n: string)
    requires n in {"listFrom", "totalCount", "list", "listTo"}
    ensures IsAscii(n)
  {
  }

  /** The keyword arguments `_condition` passes to FilterCondition, already
      text, come out of to_str as they went in. */
  lemma ConditionKeywords(name: string, cond: Member, strs: seq<Value>)
    requires IsAscii(name) && forall i :: 0 <= i < |strs| ==> strs[i].Str? && IsAscii(strs[i].s)
    ensures KwargsToStr([("field", Str(name)), ("condition", EnumMember(cond)), ("value", List(strs))], [])
            == Ok([(Str("field"), Str(name)), (Str("condition"), EnumMember(cond)), (Str("value"), List(strs))])
  {
    EncodedFixed(Str(name));
    EncodedFixed(EnumMember(cond));
    assert Encoded(List(strs));
    EncodedFixed(List(strs));
    assert RStrip("field", '_') == "field";
    assert RStrip("condition", '_') == "condition";
    assert RStrip("value", '_') == "value";
    var kw := [("field", Str(name)), ("condition", EnumMember(cond)), ("value", List(strs))];
    var e1 := (Str("field"), Str(name));
    var e2 := (Str("condition"), EnumMember(cond));
    var e3 := (Str("value"), List(strs));
    DictPutNew([], e1.0, e1.1);
    DictPutNew([e1], e2.0, e2.1);
    DictPutNew([e1, e2], e3.0, e3.1);
    assert kw[1..] == [("condition", EnumMember(cond)), ("value", List(strs))];
    assert kw[1..][1..] == [("value", List(strs))];
    assert KwargsToStr(kw[1..][1..][1..], [e1, e2, e3]) == Ok([e1, e2, e3]);
    assert ToStr(List(strs)) == Ok(List(strs));
    assert DictPut([e1, e2], Str(RStrip(kw[1..][1..][0].0, '_')), List(strs)) == [e1, e2, e3];
    assert KwargsToStr(kw[1..][1..], [e1, e2]) == KwargsToStr(kw[1..][1..][1..], [e1, e2, e3]);
    assert KwargsToStr(kw[1..], [e1]) == KwargsToStr(kw[1..][1..], [e1, e2]);
    assert KwargsToStr(kw, []) == KwargsToStr(kw[1..], [e1]);
  }

  /** FilterCondition built from a name, a condition and ASCII texts holds
      the name, the condition and a typed list of the texts. */
  lemma ConditionBuilt(name: string, cond: Member, strs: seq<Value>)
    requires cond.enum == Condition && forall i :: 0 <= i < |strs| ==> strs[i].Str?
    ensures ComplexBuild(FilterCondition, Dict([(Str("field"), Str(name)), (Str("condition"), EnumMember(cond)), (Str("value"), List(strs))]))
            == Ok(Complex(FilterCondition, [(Str("field"), Str(name)), (Str("condition"), EnumMember(cond)), (Str("value"), TypedListObj(TStr, strs))]))
  {
    var es := [(Str("field"), Str(name)), (Str("condition"), EnumMember(cond)), (Str("value"), List(strs))];
    var d := Dict(es);
    InstanceKept(Str(name), TStr, Noneable);
    InstanceKept(EnumMember(cond), TEnum(Condition), Noneable);
    assert ListAccepts(TStr, List(strs)) by {
      forall j | 0 <= j < |strs|
        ensures ElementOk(strs[j], TStr)
      {
      }
    }
    assert IsAcceptable(List(strs), TList(TStr), Noneable) == Ok(true);
    assert EntryPasses(FilterCondition, es[0]) && EntryPasses(FilterCondition, es[1]) && EntryPasses(FilterCondition, es[2]);
    ComplexAcceptsExactly(FilterCondition, d);
    assert ComplexAccepts(FilterCondition, d) == Ok(true);
    ExtendItemsKept(TStr, List(strs), 0);
    assert strs[0..] == strs;
    assert ListCreate(TStr, List(strs)) == Ok(TypedListObj(TStr, strs));
    assert Create(TList(TStr), List(strs)) == Ok(TypedListObj(TStr, strs));
    assert ConstructData(List(strs), TList(TStr), Noneable) == Ok(TypedListObj(TStr, strs));
    assert EntryConverts(FilterCondition, es[2]) && Converted(FilterCondition, es[2]) == TypedListObj(TStr, strs);
    InstanceKept(Str(name), TStr, Noneable);
    assert EntryConverts(FilterCondition, es[0]) && Converted(FilterCondition, es[0]) == Str(name);
    assert EntryConverts(FilterCondition, es[1]) && Converted(FilterCondition, es[1]) == EnumMember(cond);
    ComplexConstructLaws(FilterCondition, d);
    var r := ComplexConstruct(FilterCondition, d).value;
    assert r.data == [(Str("field"), Str(name)), (Str("condition"), EnumMember(cond)), (Str("value"), TypedListObj(TStr, strs))];
    assert ComplexBuild(FilterCondition, d) == ComplexConstruct(FilterCondition, d);
  }

  /** A condition on a declared field, with operands that untype and print
      to ASCII text, is the FilterCondition holding the field's name, the
      operator's condition and the texts in order. */
  lemma ConditionShape(c: ComplexClass, item: string, op: Operator, other: Value)
    requires forall i :: 0 <= i < |Operands(other)| ==> Printable(Operands(other)[i])
    requires item in SchemaOf(c).all
    requires forall i :: 0 <= i < |Operands(other)| ==>
               Rendered(Operands(other)[i]).Some? && IsAscii(Rendered(Operands(other)[i]).value)
    ensures FieldCondition(c, item, op, other) ==
            Ok(Complex(FilterCondition,
                       [(Str("field"), Str(item)), (Str("condition"), EnumMember(ConditionFor(op, other))),
                        (Str("value"), TypedListObj(TStr, Texts(Operands(other))))]))
  {
    var ops := Operands(other);
    var cond := ConditionFor(op, other);
    FieldNamesAscii(c, item);
    OperandTexts(ops);
    var texts := Texts(ops);
    ConditionNew(item, cond, texts);
    ConditionBuilt(item, cond, texts);
  }

  /** FilterCondition's constructor given the keyword arguments of
      `_condition` builds from the dict of those arguments. */
  lemma ConditionNew(name: string, cond: Member, strs: seq<Value>)
    requires IsAscii(name) && forall i :: 0 <= i < |strs| ==> strs[i].Str? && IsAscii(strs[i].s)
    ensures ComplexNew(FilterCondition, PyNone, [("field", Str(name)), ("condition", EnumMember(cond)), ("value", List(strs))])
            == ComplexBuild(FilterCondition, Dict([(Str("field"), Str(name)), (Str("condition"), EnumMember(cond)), (Str("value"), List(strs))]))
  {
    ConditionKeywords(name, cond, strs);
    var kw := [(Str("field"), Str(name)), (Str("condition"), EnumMember(cond)), (Str("value"), List(strs))];
    UpdateFresh([], kw);
    assert [] + kw == kw;
  }

  /** The texts of operands that all have one. */
  function Texts(ops: seq<Value>): (r: seq<Value>)
    requires forall i :: 0 <= i < |ops| ==> Printable(ops[i]) && Rendered(ops[i]).Some?
    ensures |r| == |ops| && forall i :: 0 <= i < |ops| ==> r[i] == Str(Rendered(ops[i]).value)
  {
    seq(|ops|, i requires 0 <= i < |ops| => Str(Rendered(ops[i]).value))
  }

  /** Operands that all have a text are untyped and printed to those texts. */
  lemma OperandTexts(ops: seq<Value>)
    requires forall i :: 0 <= i < |ops| ==> Printable(ops[i]) && Rendered(ops[i]).Some?
    ensures UntypeEach(ops, false).Ok?
    ensures var us := UntypeEach(ops, false).value;
            && (forall i :: 0 <= i < |us| ==> Printable(us[i]) && !us[i].Time?)
            && StrEach(us) == Ok(Texts(ops))
  {
    UntypeEachLaws(ops, false);
    forall i | 0 <= i < |ops|
      ensures UntypeBy(ops[i], false).Ok?
    {
      assert Untype(ops[i]).Ok?;
    }
    var us := UntypeEach(ops, false).value;
    forall i | 0 <= i < |ops|
      ensures StrOf(us[i]) == Ok(Rendered(ops[i]).value)
    {
      assert UntypeBy(ops[i], false) == Ok(us[i]);
    }
    var ss := StrEach(us);
    assert ss.Ok?;
    assert ss.value == Texts(ops);
  }

  /** Adding keys that are all new appends them in order. */
  lemma {:induction false} UpdateFresh(es: seq<(Value, Value)>, other: seq<(Value, Value)>)
    requires UniqueKeys(other) && forall i :: 0 <= i < |other| ==> other[i].0 !in Keys(es)
    ensures Update(es, other) == es + other
    decreases |other|
  {
    if |other| > 0 {
      DictPutNew(es, other[0].0, other[0].1);
      var es' := es + [other[0]];
      forall i | 0 <= i < |other[1..]|
        ensures other[1..][i].0 !in Keys(es')
      {
        assert Keys(es') == Keys(es) + [other[0].0];
      }
      UpdateFresh(es', other[1..]);
      assert es' + other[1..] == es + other;
    }
  }

  /** As written, any operand other than a datetime makes the condition fail
      with TypeError, provided no datetime before it is refused by strftime. */
  lemma ConditionAsWrittenRefuses(c: ComplexClass, item: string, op: Operator, other: Value, k: nat)
    requires forall i :: 0 <= i < |Operands(other)| ==> Printable(Operands(other)[i])
    requires item in SchemaOf(c).all
    requires k < |Operands(other)| && !Operands(other)[k].Time?
    requires forall i :: 0 <= i < k ==> Operands(other)[i].Time? && Operands(other)[i].t.year >= 1900
    ensures ConditionAsWritten(c, item, op, other) == Err(TypeError)
  {
    UntypeEachStops(Operands(other), k);
  }

  /** Untyping as written stops at operand `k` when every operand before it
      untypes. */
  lemma {:induction false} UntypeEachStops(vs: seq<Value>, k: nat)
    requires forall i :: 0 <= i < |vs| ==> Printable(vs[i])
    requires k < |vs| && !vs[k].Time?
    requires forall i :: 0 <= i < k ==> vs[i].Time? && vs[i].t.year >= 1900
    ensures UntypeEach(vs, true) == Err(TypeError)
  {
    if k > 0 {
      UntypeEachStops(vs[1..], k - 1);
    }
  }

  /** On datetimes alone the untype as written and as intended agree. */
  lemma ConditionOnTimes(c: ComplexClass, item: string, op: Operator, other: Value)
    requires forall i :: 0 <= i < |Operands(other)| ==> Printable(Operands(other)[i]) && Operands(other)[i].Time?
    ensures ConditionAsWritten(c, item, op, other) == FieldCondition(c, item, op, other)
  {
    var ops := Operands(other);
    assert forall i :: 0 <= i < |ops| ==> UntypeBy(ops[i], true) == UntypeBy(ops[i], false);
    UntypeEachAgree(ops);
  }

  lemma {:induction false} UntypeEachAgree(vs: seq<Value>)
    requires forall i :: 0 <= i < |vs| ==> Printable(vs[i]) && UntypeBy(vs[i], true) == UntypeBy(vs[i], false)
    ensures UntypeEach(vs, true) == UntypeEach(vs, false)
  {
    if |vs| > 0 {
      UntypeEachAgree(vs[1..]);
    }
  }
}
