/**
 * Vegetables: a closed set of kinds (carrot, turnip), each planted vegetable an
 * object with a mutable ripeness status that starts RAW.
 */
module Vegetables {

  /** The ripeness of a vegetable (`Status` in the source). */
  datatype Status = Raw | Ripe

  /** The vegetable classes of the source, `Carrot` and `Turnip`. */
  datatype Kind = Carrot | Turnip

  /** The name `getType` returns for a vegetable of kind `kind`. */
  function TypeName(kind: Kind): (name: string)
  {
    match kind
    case Carrot => "carrot"
    case Turnip => "turnip"
  }

  /**
   * The view uses the name as a style class to draw a vegetable, so the name
   * tells the kind: two vegetables have the same name exactly when they are
   * of the same kind.
   */
  lemma TypeNameIdentifiesKind(a: Kind, b: Kind)
    ensures TypeName(a) == TypeName(b) <==> a == b
  {
    if a != b {
      assert TypeName(a)[0] != TypeName(b)[0];
    }
  }

  /**
   * One planted vegetable. Its identity matters: a ripening task holds a
   * reference to it, and the cell removes it by identity.
   */
  class Vegetable {
    const kind: Kind
    var status: Status

    /** `new Carrot()` / `new Turnip()`: every vegetable starts RAW. */
    constructor (kind: Kind)
      ensures this.kind == kind && status == Raw
    {
      this.kind := kind;
      status := Raw;
    }

    method SetStatus(status: Status)
      modifies this
      ensures this.status == status
    {
      this.status := status;
    }
  }
}
