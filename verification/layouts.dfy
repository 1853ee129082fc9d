/**
  The vertex-buffer layout: an append-only list of attribute descriptors,
  each with an element type, a component count, a normalized flag and a
  byte offset into one interleaved vertex record, plus the running stride.

  The layout's invariant is that offsets are prefix sums of the
  descriptors' byte sizes and the stride is the total (`Valid`). `Add`
  keeps it, and `Build` (any sequence of `add` calls on a default layout)
  yields exactly the layout described by `SumCounts`.
 */
module Layouts {
  import opened Gl

  /** `VertexBufferLayoutType`; the GL enum is its discriminant. */
  datatype LayoutType = F32 | U32

  /** `size_of::<f32>()` and `size_of::<u32>()`. */
  const SIZE_OF_F32: u32 := 4
  const SIZE_OF_U32: u32 := 4

  /** `size_of_layout_type`: the byte size of one component. */
  function SizeOf(t: LayoutType): (n: u32)
    ensures n == 4
  {
    match t
    case F32 => SIZE_OF_F32
    case U32 => SIZE_OF_U32
  }

  /** The discriminant `layout_type as u32`. */
  function TypeEnum(t: LayoutType): (e: u32)
    ensures e == GL_FLOAT <==> t == F32
    ensures e == GL_UNSIGNED_INT <==> t == U32
  {
    match t
    case F32 => GL_FLOAT
    case U32 => GL_UNSIGNED_INT
  }

  /** Reads a GL component type back; only the two layout types are recognised. */
  function TypeOfEnum(e: u32): (r: Option<LayoutType>)
    ensures forall t :: r == Some(t) <==> TypeEnum(t) == e
  {
    if e == GL_FLOAT then Some(F32)
    else if e == GL_UNSIGNED_INT then Some(U32)
    else None
  }

  /** `VertexBufferLayoutElement`. */
  datatype Element = Element(layoutType: LayoutType, count: u32, normalized: bool, offset: u32)

  /** The arguments of one `add` call. */
  datatype Attribute = Attribute(layoutType: LayoutType, count: u32, normalized: bool)

  /** `VertexBufferLayout`: the elements in append order and the running stride. */
  datatype Layout = Layout(elements: seq<Element>, stride: u32)

  /** The bytes one element occupies in a vertex record. */
  function ByteSize(e: Element): nat
  {
    e.count * SizeOf(e.layoutType)
  }

  /** Total bytes of a run of elements. */
  function SumSizes(es: seq<Element>): nat
    decreases |es|
  {
    if |es| == 0 then 0 else SumSizes(es[..|es| - 1]) + ByteSize(es[|es| - 1])
  }

  /** Total component count of a run of `add` arguments. */
  function SumCounts(attrs: seq<Attribute>): nat
    decreases |attrs|
  {
    if |attrs| == 0 then 0 else SumCounts(attrs[..|attrs| - 1]) + attrs[|attrs| - 1].count
  }

  /** The layout invariant: offsets are prefix sums and the stride is the full sum. */
  ghost predicate Valid(l: Layout)
  {
    && l.stride == SumSizes(l.elements)
    && forall k :: 0 <= k < |l.elements| ==> l.elements[k].offset == SumSizes(l.elements[..k])
  }

  /** `VertexBufferLayout::default()`. */
  function Default(): (l: Layout)
    ensures l.elements == [] && l.stride == 0
    ensures Valid(l)
  {
    Layout([], 0)
  }

  /**
    `add`: append one element whose offset is the stride before the call and
    grow the stride by its byte size. The `u32` arithmetic panics on
    overflow, which is the error case here.
   */
  function Add(l: Layout, t: LayoutType, count: u32, normalized: bool): (r: Result<Layout>)
    ensures r.Ok? <==> l.stride + 4 * count <= U32_MAX
    ensures r.Err? ==> r.error == StrideOverflow
    ensures r.Ok? ==> |r.value.elements| == |l.elements| + 1
    ensures r.Ok? ==> r.value.elements[..|l.elements|] == l.elements
    ensures r.Ok? ==> var e := r.value.elements[|l.elements|];
      && e.layoutType == t && e.count == count && e.normalized == normalized
      && e.offset == l.stride
    ensures r.Ok? ==> r.value.stride == l.stride + count * SizeOf(t)
  {
    var e := Element(t, count, normalized, l.stride);
    var grown := l.stride + count * SizeOf(t);
    if grown > U32_MAX then Err(StrideOverflow)
    else
      assert (l.elements + [e])[..|l.elements|] == l.elements;
      Ok(Layout(l.elements + [e], grown))
  }

  lemma SumSizesSnoc(es: seq<Element>, e: Element)
    ensures SumSizes(es + [e]) == SumSizes(es) + ByteSize(e)
  {
    assert (es + [e])[..|es|] == es;
  }

  /** `add` keeps the layout invariant. */
  lemma {:induction false} AddPreservesValid(l: Layout, t: LayoutType, count: u32, normalized: bool)
    requires Valid(l)
    requires Add(l, t, count, normalized).Ok?
    ensures Valid(Add(l, t, count, normalized).value)
  {
    var r := Add(l, t, count, normalized).value;
    var n := |l.elements|;
    assert r.elements == l.elements + [r.elements[n]];
    SumSizesSnoc(l.elements, r.elements[n]);
    forall k | 0 <= k < |r.elements|
      ensures r.elements[k].offset == SumSizes(r.elements[..k])
    {
      if k < n {
        assert r.elements[..k] == l.elements[..k];
      } else {
        assert r.elements[..k] == l.elements;
      }
    }
  }

  /** Byte sizes of a prefix never exceed those of the whole run. */
  lemma {:induction false} SumSizesPrefix(es: seq<Element>, i: nat)
    requires i <= |es|
    ensures SumSizes(es[..i]) <= SumSizes(es)
    decreases |es|
  {
    if i < |es| {
      var m := |es| - 1;
      assert es[..m][..i] == es[..i];
      SumSizesPrefix(es[..m], i);
    } else {
      assert es[..i] == es;
    }
  }

  /** Extending a prefix by one element adds that element's byte size. */
  lemma SumSizesStep(es: seq<Element>, k: nat)
    requires k < |es|
    ensures SumSizes(es[..k + 1]) == SumSizes(es[..k]) + ByteSize(es[k])
  {
    assert es[..k + 1][..k] == es[..k];
  }

  /**
    In a valid layout the elements sit back to back: each one starts where
    the previous one ends, and the last one ends at the stride.
   */
  lemma ValidElementsAreContiguous(l: Layout, k: nat)
    requires Valid(l)
    requires k < |l.elements|
    ensures k + 1 < |l.elements| ==> l.elements[k + 1].offset == l.elements[k].offset + ByteSize(l.elements[k])
    ensures k + 1 == |l.elements| ==> l.stride == l.elements[k].offset + ByteSize(l.elements[k])
  {
    SumSizesStep(l.elements, k);
    if k + 1 == |l.elements| {
      assert l.elements[..k + 1] == l.elements;
    }
  }

  /** In a valid layout offsets never decrease and every element fits inside the stride. */
  lemma {:induction false} ValidOffsetsMonotone(l: Layout, i: nat, j: nat)
    requires Valid(l)
    requires i <= j < |l.elements|
    ensures l.elements[i].offset <= l.elements[j].offset
    ensures l.elements[j].offset + ByteSize(l.elements[j]) <= l.stride
  {
    var es := l.elements;
    assert es[..j][..i] == es[..i];
    SumSizesPrefix(es[..j], i);
    SumSizesStep(es, j);
    SumSizesPrefix(es, j + 1);
  }

  /** Any sequence of `add` calls on a default layout; the first overflow panics. */
  function Build(attrs: seq<Attribute>): (r: Result<Layout>)
    ensures r.Ok? ==> |r.value.elements| == |attrs|
    ensures r.Err? ==> r.error == StrideOverflow
    decreases |attrs|
  {
    if |attrs| == 0 then Ok(Default())
    else
      var last := attrs[|attrs| - 1];
      match Build(attrs[..|attrs| - 1])
      case Err(e) => Err(e)
      case Ok(l) => Add(l, last.layoutType, last.count, last.normalized)
  }

  lemma SumCountsPrefix(attrs: seq<Attribute>, i: nat)
    requires i <= |attrs|
    ensures SumCounts(attrs[..i]) <= SumCounts(attrs)
    decreases |attrs|
  {
    if i < |attrs| {
      var m := |attrs| - 1;
      assert attrs[..m][..i] == attrs[..i];
      SumCountsPrefix(attrs[..m], i);
    } else {
      assert attrs[..i] == attrs;
    }
  }

  /**
    A sequence of `add` calls on a default layout succeeds exactly when the
    total byte size, 4 times the total component count, fits in a `u32`;
    the resulting layout has one element per call and that total as stride.
   */
  lemma {:induction false} BuildSucceedsIff(attrs: seq<Attribute>)
    ensures Build(attrs).Ok? <==> 4 * SumCounts(attrs) <= U32_MAX
    ensures Build(attrs).Err? ==> Build(attrs).error == StrideOverflow
    ensures Build(attrs).Ok? ==>
      && |Build(attrs).value.elements| == |attrs|
      && Build(attrs).value.stride == 4 * SumCounts(attrs)
    decreases |attrs|
  {
    if |attrs| > 0 {
      var m := |attrs| - 1;
      BuildSucceedsIff(attrs[..m]);
      if Build(attrs[..m]).Err? {
        SumCountsPrefix(attrs, m);
      }
    }
  }

  /** Any layout built by a sequence of `add` calls satisfies the layout invariant. */
  lemma {:induction false} BuildValid(attrs: seq<Attribute>)
    requires Build(attrs).Ok?
    ensures Valid(Build(attrs).value)
    decreases |attrs|
  {
    if |attrs| > 0 {
      var m := |attrs| - 1;
      var last := attrs[m];
      BuildValid(attrs[..m]);
      AddPreservesValid(Build(attrs[..m]).value, last.layoutType, last.count, last.normalized);
    }
  }

  /**
    The elements of a layout built by a sequence of `add` calls carry the
    arguments in call order, and the k-th offset is 4 times the component
    count of the first k calls.
   */
  lemma {:induction false} BuildElements(attrs: seq<Attribute>)
    requires Build(attrs).Ok?
    ensures |Build(attrs).value.elements| == |attrs|
    ensures var l := Build(attrs).value;
      forall k :: 0 <= k < |attrs| ==>
        && l.elements[k].layoutType == attrs[k].layoutType
        && l.elements[k].count == attrs[k].count
        && l.elements[k].normalized == attrs[k].normalized
        && l.elements[k].offset == 4 * SumCounts(attrs[..k])
    decreases |attrs|
  {
    BuildSucceedsIff(attrs);
    if |attrs| > 0 {
      var m := |attrs| - 1;
      var init := attrs[..m];
      var last := attrs[m];
      var l := Build(init).value;
      BuildElements(init);
      BuildSucceedsIff(init);
      var r := Build(attrs).value;
      assert r == Add(l, last.layoutType, last.count, last.normalized).value;
      assert r.elements[..m] == l.elements;
      forall k | 0 <= k < |attrs|
        ensures r.elements[k].layoutType == attrs[k].layoutType
        ensures r.elements[k].count == attrs[k].count
        ensures r.elements[k].normalized == attrs[k].normalized
        ensures r.elements[k].offset == 4 * SumCounts(attrs[..k])
      {
        if k < m {
          assert r.elements[k] == l.elements[k];
          assert init[..k] == attrs[..k];
        } else {
          assert attrs[..k] == init;
        }
      }
    }
  }
}
