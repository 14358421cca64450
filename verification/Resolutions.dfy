/** The order in which controller/affiliate_invitee_discount.go lists video resolutions. */
module Resolutions {
  import opened Options
  import opened Order

  const DEFAULT_LABEL := "默认"

  /** distributorModelDiscountResolutionLess. `value` is the size a label parses to, if it does. */
  function ResolutionLess(value: string -> Option<real>): (string, string) -> bool {
    (left, right) =>
      if left == DEFAULT_LABEL then right != DEFAULT_LABEL
      else if right == DEFAULT_LABEL then false
      else if value(left).Some? && value(right).Some? && value(left).value != value(right).value
      then value(left).value < value(right).value
      else if value(left).Some? != value(right).Some? then value(left).Some?
      else LexLess(left, right)
  }

  /** The default comes first, then the labels that parse, by size, then the others; the text decides between equals. */
  lemma ResolutionsExactly(value: string -> Option<real>, a: string, b: string)
    ensures var x, y := value(a), value(b);
            ResolutionLess(value)(a, b) <==>
              || (a == "默认" && b != "默认")
              || (a != "默认" && b != "默认" && x.Some? && y.Some? && x.value < y.value)
              || (a != "默认" && b != "默认" && x.Some? && y.None?)
              || (a != "默认" && b != "默认" && LexLess(a, b)
                  && ((x.Some? && y.Some? && x.value == y.value) || (x.None? && y.None?)))
  {
    hide LexLess;
  }

  /** Whatever the labels parse to, this is a strict total order, so the listing does not depend on the
      order the prices came in. */
  lemma ResolutionOrder(value: string -> Option<real>)
    ensures StrictTotal(ResolutionLess(value))
  {
    hide LexLess;
    var less := ResolutionLess(value);
    forall a: string, b: string ensures !less(a, a) && (a == b || less(a, b) || less(b, a)) {
      LexTotal(a, b);
    }
    forall a: string, b: string, c: string | less(a, b) && less(b, c) ensures less(a, c) {
      if LexLess(a, b) && LexLess(b, c) {
        LexTransitive(a, b, c);
      }
    }
  }
}
