/** Masks: arrays that filter a spectrogram by cell-wise multiplication. */
module MaskData {
  import opened Arrays
  import opened AudioData

  datatype Mask = Mask(data: Array3)

  /** The mask's shape, which is the shape of its data: the extents its
      cells fill, kept even when an axis is empty. */
  function MaskShape(m: Mask): (s: Shape)
    ensures HasShape(m.data.cells, s)
    ensures s.freq == m.data.shape.freq && s.time == m.data.shape.time && s.chan == m.data.shape.chan
  {
    m.data.shape
  }

  /** Every cell of `a` is 0 or 1. */
  ghost predicate IsBinary(a: Array3) {
    forall i, j, k :: InShape(a.shape, i, j, k) ==> At(a, i, j, k) == 0.0 || At(a, i, j, k) == 1.0
  }

  /** The multiplication rule: the cell-wise product of the mask's data and
      the spectrogram's data. */
  function Mult(m: Mask, d: Array3): (r: Array3)
    requires MaskShape(m) == d.shape
    ensures r.shape == d.shape
    ensures forall i, j, k :: InShape(d.shape, i, j, k) ==> At(r, i, j, k) == At(m.data, i, j, k) * At(d, i, j, k)
  {
    ZipCells(m.data, d, (x, y) => x * y)
  }

  /** `mask * spec`: a new spectrogram holding the filtered data, with the
      input spectrogram's rate and label.  The multiplication rule is given
      the spectrogram itself: the source hands it the spectrogram's data and
      then reads `.data` of that again, and the evident intent, the cell-wise
      product, is what is modelled here.  Shapes are not checked by the source,
      so equal shapes are a precondition. */
  function Apply(m: Mask, spec: Spectrogram): (r: Spectrogram)
    requires MaskShape(m) == spec.data.shape
    ensures r.data.shape == spec.data.shape
    ensures forall i, j, k :: InShape(spec.data.shape, i, j, k) ==>
              At(r.data, i, j, k) == At(m.data, i, j, k) * At(spec.data, i, j, k)
    ensures r.sr == spec.sr && r.fn == spec.fn
  {
    Spectrogram(Mult(m, spec.data), spec.sr, spec.fn)
  }

  /** `spec * mask`, the reflected product: it hands over to `mask * spec`,
      and what it yields is the product with the spectrogram on the left. */
  function ApplyReflected(spec: Spectrogram, m: Mask): (r: Spectrogram)
    requires MaskShape(m) == spec.data.shape
    ensures r.data.shape == spec.data.shape
    ensures forall i, j, k :: InShape(spec.data.shape, i, j, k) ==>
              At(r.data, i, j, k) == At(spec.data, i, j, k) * At(m.data, i, j, k)
    ensures r.sr == spec.sr && r.fn == spec.fn
  {
    Apply(m, spec)
  }

  /** The filtered data is also the spectrogram's data used as a mask on the
      mask's data: the product does not depend on which operand filters. */
  lemma ProductCommutes(m: Mask, spec: Spectrogram)
    requires MaskShape(m) == spec.data.shape
    ensures Apply(m, spec).data == Mult(Mask(spec.data), m.data)
  {
    CellwiseEqual(Apply(m, spec).data, Mult(Mask(spec.data), m.data));
  }

  /** With a 0/1 mask the product gates the spectrogram: a cell is 0 where
      the mask is 0 and is the spectrogram's cell where the mask is 1. */
  lemma BinaryMaskGates(m: Mask, spec: Spectrogram)
    requires MaskShape(m) == spec.data.shape
    requires IsBinary(m.data)
    ensures forall i, j, k :: InShape(spec.data.shape, i, j, k) ==>
              if At(m.data, i, j, k) == 0.0 then At(Apply(m, spec).data, i, j, k) == 0.0
              else At(Apply(m, spec).data, i, j, k) == At(spec.data, i, j, k)
  {
  }
}
