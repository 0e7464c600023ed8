/**
 * Parsed values and the rule that sequencing uses to combine two of them:
 * a dropped value disappears, two tagged objects are united key by key, a tagged
 * object absorbs anything else, and everything else is concatenated flat.
 */
module Merging {
  import opened Tokenizer

  /**
   * A parsed value. `Dropped` is the `Parser.Drop` symbol; `Obj` is a JavaScript
   * object whose `tagged` flag stands for the `Parser.AsObject` marker.
   */
  datatype Value =
    | Dropped
    | Null
    | Bool(b: bool)
    | Num(n: int)
    | Str(s: string)
    | Tok(token: Token)
    | Arr(items: seq<Value>)
    | Obj(fields: map<string, Value>, tagged: bool)

  /** `Parser.isObject`: an object carrying the marker. */
  predicate IsObject(v: Value)
  {
    v.Obj? && v.tagged
  }

  /** What an operand adds to a flat concatenation: its elements if it is an array, else itself. */
  function Contribution(v: Value): (c: seq<Value>)
    ensures v.Arr? ==> c == v.items
    ensures !v.Arr? ==> c == [v]
  {
    if v.Arr? then v.items else [v]
  }

  /** The number of items an operand adds to a flat concatenation. */
  function Width(v: Value): nat
  {
    if v.Arr? then |v.items| else 1
  }

  /**
   * The case analysis of `merge`. `keepTag` says whether the union of two tagged
   * objects is itself tagged: an object spread copies only enumerable properties,
   * and the marker is defined non-enumerable, so the code as written loses it.
   */
  function MergeWith(a: Value, b: Value, keepTag: bool): (r: Value)
    ensures a.Dropped? ==> r == b
    ensures !a.Dropped? && b.Dropped? ==> r == a
    ensures !a.Dropped? && !b.Dropped? && IsObject(a) && IsObject(b) ==>
      && r.Obj? && r.tagged == keepTag
      && r.fields.Keys == a.fields.Keys + b.fields.Keys
      && (forall k :: k in b.fields ==> r.fields[k] == b.fields[k])
      && (forall k :: k in a.fields && k !in b.fields ==> r.fields[k] == a.fields[k])
    ensures !a.Dropped? && !b.Dropped? && IsObject(a) && !IsObject(b) ==> r == a
    ensures !a.Dropped? && !b.Dropped? && !IsObject(a) ==>
      && r.Arr?
      && |r.items| == Width(a) + Width(b)
      && r.items[..Width(a)] == Contribution(a)
      && r.items[Width(a)..] == Contribution(b)
  {
    if a.Dropped? then b
    else if b.Dropped? then a
    else if IsObject(a) then
      if IsObject(b) then Obj(a.fields + b.fields, keepTag) else a
    else
      var items := Contribution(a) + Contribution(b);
      assert items[..Width(a)] == Contribution(a);
      assert items[Width(a)..] == Contribution(b);
      Arr(items)
  }

  /** `merge` as written: the union of two tagged objects comes out untagged. */
  function MergeAsWritten(a: Value, b: Value): (r: Value)
    ensures IsObject(a) && IsObject(b) ==> r.Obj? && !IsObject(r)
  {
    MergeWith(a, b, false)
  }

  /** `merge` as the `Merge` type describes it: the union of two tagged objects is tagged. */
  function Merge(a: Value, b: Value): (r: Value)
    ensures IsObject(a) && IsObject(b) ==> IsObject(r)
  {
    MergeWith(a, b, true)
  }

  /**
   * Three named fields merged one after another: as written, the second merge sees
   * an untagged left operand and builds a two-element list instead of one object.
   */
  lemma MergeAsWrittenSplitsThreeFields()
    ensures var x := Obj(map["name" := Str("do_thing")], true);
      var y := Obj(map["params" := Arr([])], true);
      var z := Obj(map["returns" := Str("bool")], true);
      && MergeAsWritten(MergeAsWritten(x, y), z)
         == Arr([Obj(map["name" := Str("do_thing"), "params" := Arr([])], false), z])
      && Merge(Merge(x, y), z)
         == Obj(map["name" := Str("do_thing"), "params" := Arr([]), "returns" := Str("bool")], true)
  {
    var x := Obj(map["name" := Str("do_thing")], true);
    var y := Obj(map["params" := Arr([])], true);
    var z := Obj(map["returns" := Str("bool")], true);
    assert MergeAsWritten(x, y) == Obj(map["name" := Str("do_thing"), "params" := Arr([])], false);
    assert Merge(x, y) == Obj(map["name" := Str("do_thing"), "params" := Arr([])], true);
  }

  /** Each value is dropped, or a tagged object. */
  predicate AllNamed(vs: seq<Value>)
  {
    forall i :: 0 <= i < |vs| ==> vs[i].Dropped? || IsObject(vs[i])
  }

  /** No value is a tagged object. */
  predicate NoneNamed(vs: seq<Value>)
  {
    forall i :: 0 <= i < |vs| ==> !IsObject(vs[i])
  }

  /**
   * Merging is associative when the operands are all named fields (or dropped), and
   * when none is: grouping a chain of sequenced parsers does not change its value.
   */
  lemma MergeAssociative(a: Value, b: Value, c: Value)
    requires AllNamed([a, b, c]) || NoneNamed([a, b, c])
    ensures Merge(Merge(a, b), c) == Merge(a, Merge(b, c))
  {
    assert a == [a, b, c][0] && b == [a, b, c][1] && c == [a, b, c][2];
    if a.Dropped? || b.Dropped? || c.Dropped? {
      MergeAssociativeDropped(a, b, c, true);
    } else if IsObject(a) {
      MergeAssociativeObjects(a, b, c);
    } else {
      MergeAssociativeFlat(a, b, c, true);
    }
  }

  /**
   * As written, merging stays associative for plain operands, whose merges never
   * build a tagged object.
   */
  lemma MergeAsWrittenPlainAssociative(a: Value, b: Value, c: Value)
    requires NoneNamed([a, b, c])
    ensures MergeAsWritten(MergeAsWritten(a, b), c) == MergeAsWritten(a, MergeAsWritten(b, c))
  {
    assert a == [a, b, c][0] && b == [a, b, c][1] && c == [a, b, c][2];
    if a.Dropped? || b.Dropped? || c.Dropped? {
      MergeAssociativeDropped(a, b, c, false);
    } else {
      MergeAssociativeFlat(a, b, c, false);
    }
  }

  /**
   * As written, three named fields are not associative: grouped from the left they
   * give a list, grouped from the right the first object swallows the untagged rest.
   */
  lemma MergeAsWrittenNotAssociative()
    ensures var x := Obj(map["name" := Str("f")], true);
      var y := Obj(map["params" := Arr([])], true);
      var z := Obj(map["docstring" := Str("d")], true);
      && MergeAsWritten(x, MergeAsWritten(y, z)) == x
      && MergeAsWritten(MergeAsWritten(x, y), z) != MergeAsWritten(x, MergeAsWritten(y, z))
  {
    var x := Obj(map["name" := Str("f")], true);
    var y := Obj(map["params" := Arr([])], true);
    var z := Obj(map["docstring" := Str("d")], true);
    assert MergeAsWritten(y, z).Obj? && !MergeAsWritten(y, z).tagged;
    assert MergeAsWritten(x, y).Obj? && !MergeAsWritten(x, y).tagged;
    assert MergeAsWritten(MergeAsWritten(x, y), z).Arr?;
  }

  /** A dropped operand disappears from either grouping, under either merge. */
  lemma MergeAssociativeDropped(a: Value, b: Value, c: Value, keepTag: bool)
    requires a.Dropped? || b.Dropped? || c.Dropped?
    ensures MergeWith(MergeWith(a, b, keepTag), c, keepTag) == MergeWith(a, MergeWith(b, c, keepTag), keepTag)
  {
  }

  /** Three tagged objects: the union of their fields, later keys winning, either way. */
  lemma MergeAssociativeObjects(a: Value, b: Value, c: Value)
    requires IsObject(a) && IsObject(b) && IsObject(c)
    ensures Merge(Merge(a, b), c) == Merge(a, Merge(b, c))
  {
    assert Merge(a, b) == Obj(a.fields + b.fields, true);
    assert Merge(b, c) == Obj(b.fields + c.fields, true);
    assert (a.fields + b.fields) + c.fields == a.fields + (b.fields + c.fields);
  }

  /** Three plain operands: one flat list either way, under either merge. */
  lemma MergeAssociativeFlat(a: Value, b: Value, c: Value, keepTag: bool)
    requires !a.Dropped? && !b.Dropped? && !c.Dropped?
    requires !IsObject(a) && !IsObject(b) && !IsObject(c)
    ensures MergeWith(MergeWith(a, b, keepTag), c, keepTag) == MergeWith(a, MergeWith(b, c, keepTag), keepTag)
  {
    var ca, cb, cc := Contribution(a), Contribution(b), Contribution(c);
    MergePlain(a, b, keepTag);
    MergePlain(b, c, keepTag);
    MergePlain(MergeWith(a, b, keepTag), c, keepTag);
    MergePlain(a, MergeWith(b, c, keepTag), keepTag);
    assert ca + (cb + cc) == (ca + cb) + cc;
  }

  /** Two plain operands, neither dropped, the first untagged: a flat list. */
  lemma MergePlain(a: Value, b: Value, keepTag: bool)
    requires !a.Dropped? && !b.Dropped? && !IsObject(a)
    ensures MergeWith(a, b, keepTag) == Arr(Contribution(a) + Contribution(b))
  {
  }

  /** A chain of merges from the left, as `Parser.and(p1, ..., pn)` builds it. */
  function MergeAll(vs: seq<Value>): Value
    requires |vs| >= 1
  {
    if |vs| == 1 then vs[0] else Merge(MergeAll(vs[..|vs| - 1]), vs[|vs| - 1])
  }

  /** Union of the fields of the tagged objects among `vs`, later keys winning. */
  function FieldsOf(vs: seq<Value>): map<string, Value>
  {
    if |vs| == 0 then map[]
    else
      var last := vs[|vs| - 1];
      FieldsOf(vs[..|vs| - 1]) + (if IsObject(last) then last.fields else map[])
  }

  /**
   * Sequencing named fields and dropped values yields one tagged object holding
   * all the fields, or the drop marker when every value was dropped.
   */
  lemma {:induction false} MergeAllNamed(vs: seq<Value>)
    requires |vs| >= 1 && AllNamed(vs)
    ensures var r := MergeAll(vs);
      (forall i :: 0 <= i < |vs| ==> vs[i].Dropped?) ==> r.Dropped?
    ensures var r := MergeAll(vs);
      (exists i :: 0 <= i < |vs| && IsObject(vs[i])) ==> IsObject(r) && r.fields == FieldsOf(vs)
  {
    if |vs| > 1 {
      var init := vs[..|vs| - 1];
      assert AllNamed(init) by {
        forall i | 0 <= i < |init| ensures init[i].Dropped? || IsObject(init[i]) {
          assert init[i] == vs[i];
        }
      }
      MergeAllNamed(init);
      var last := vs[|vs| - 1];
      assert last.Dropped? || IsObject(last) by {
        assert last == vs[|vs| - 1];
      }
      if exists i :: 0 <= i < |vs| && IsObject(vs[i]) {
        var i :| 0 <= i < |vs| && IsObject(vs[i]);
        if i < |vs| - 1 {
          assert IsObject(init[i]);
          assert IsObject(MergeAll(init));
          assert MergeAll(init).fields == FieldsOf(init);
        } else if !(exists j :: 0 <= j < |init| && IsObject(init[j])) {
          assert forall j :: 0 <= j < |init| ==> init[j].Dropped?;
          assert FieldsOf(init) == map[] by { NoFieldsWhenDropped(init); }
          assert FieldsOf(vs) == map[] + last.fields;
          assert map[] + last.fields == last.fields;
        }
      } else {
        assert forall i :: 0 <= i < |vs| ==> vs[i].Dropped?;
        assert forall i :: 0 <= i < |init| ==> init[i].Dropped? by {
          forall i | 0 <= i < |init| ensures init[i].Dropped? {
            assert init[i] == vs[i];
          }
        }
      }
    } else {
      if exists i :: 0 <= i < |vs| && IsObject(vs[i]) {
        assert FieldsOf(vs) == FieldsOf([]) + vs[0].fields;
        assert map[] + vs[0].fields == vs[0].fields;
      }
    }
  }

  lemma {:induction false} NoFieldsWhenDropped(vs: seq<Value>)
    requires forall i :: 0 <= i < |vs| ==> vs[i].Dropped?
    ensures FieldsOf(vs) == map[]
  {
    if |vs| > 0 {
      NoFieldsWhenDropped(vs[..|vs| - 1]);
    }
  }
}
