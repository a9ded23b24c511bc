/** The token purchase page: its three-package catalog, the lookup of the
    selected package with a fallback to the first, and the payment that
    reports the chosen package to the parent once processing ends. */
module TokenPurchase {
  import opened Types

  datatype Package = Package(id: string, name: string, tokens: nat, price: nat, discount: Option<string>)

  const Catalog: seq<Package> := [
    Package("basic", "BASIC", 100, 100000, None),
    Package("premium", "PREMIUM", 500, 450000, Some("Hemat 10%")),
    Package("enterprise", "ENTERPRISE", 1000, 800000, Some("Hemat 20%"))
  ]

  /** `find(...) || tokenPackages[0]`. */
  function SelectedPackage(id: string): (p: Package)
    ensures p in Catalog
    ensures (exists q :: q in Catalog && q.id == id) ==> p.id == id
    ensures (forall q :: q in Catalog ==> q.id != id) ==> p == Catalog[0]
  {
    match FindFirst(Catalog, (q: Package) => q.id == id)
    case Some(q) => q
    case None => Catalog[0]
  }

  /** The catalog's ids are distinct, so the lookup of each package's id
      gives back that package, and an unknown id gives BASIC. */
  lemma SelectionIsExact(id: string)
    ensures forall i, j :: 0 <= i < j < |Catalog| ==> Catalog[i].id != Catalog[j].id
    ensures forall i :: 0 <= i < |Catalog| ==> SelectedPackage(Catalog[i].id) == Catalog[i]
    ensures id !in {"basic", "premium", "enterprise"} ==> SelectedPackage(id).id == "basic"
    ensures SelectedPackage(id).price >= 100000
  {
  }

  const InitialSelection := "basic"

  /** The total shown on first render. */
  lemma InitialTotal()
    ensures SelectedPackage(InitialSelection).price == 100000
    ensures SelectedPackage(InitialSelection).tokens == 100
  {
  }

  class Page {
    var selectedPackage: string
    var paymentMethod: string
    var isProcessing: bool
    var showConfirmation: bool
    /** The selection the running payment will report; it is captured when
        the payment starts, so a later change of selection does not alter
        it. */
    var pending: Option<string>
    const currentBalance: int

    predicate Inv()
      reads this
    {
      isProcessing <==> pending.Some?
    }

    /** The total shown above the pay button. */
    function Total(): nat
      reads this
    {
      SelectedPackage(selectedPackage).price
    }

    predicate PayDisabled()
      reads this
    {
      isProcessing
    }

    constructor (currentBalance: Option<int>)
      ensures Inv() && selectedPackage == InitialSelection && paymentMethod == "credit-card"
      ensures !isProcessing && !showConfirmation && pending == None
      ensures this.currentBalance == OrDefault(currentBalance, 0)
      ensures Total() == 100000
    {
      selectedPackage := InitialSelection;
      paymentMethod := "credit-card";
      isProcessing := false;
      showConfirmation := false;
      pending := None;
      this.currentBalance := OrDefault(currentBalance, 0);
    }

    method SelectPackage(id: string)
      modifies this
      ensures selectedPackage == id && Total() == SelectedPackage(id).price
      ensures paymentMethod == old(paymentMethod) && isProcessing == old(isProcessing)
      ensures showConfirmation == old(showConfirmation) && pending == old(pending)
    {
      selectedPackage := id;
    }

    method SelectPaymentMethod(m: string)
      modifies this
      ensures paymentMethod == m
      ensures selectedPackage == old(selectedPackage) && isProcessing == old(isProcessing)
      ensures showConfirmation == old(showConfirmation) && pending == old(pending)
    {
      paymentMethod := m;
    }

    /** "Bayar Sekarang": only reachable while the button is enabled. */
    method Pay()
      requires Inv() && !PayDisabled()
      modifies this
      ensures Inv() && isProcessing && PayDisabled()
      ensures pending == Some(old(selectedPackage))
      ensures selectedPackage == old(selectedPackage) && paymentMethod == old(paymentMethod)
      ensures showConfirmation == old(showConfirmation)
    {
      isProcessing := true;
      pending := Some(selectedPackage);
    }

    /** The processing delay ends: the captured package id goes to the
        parent and the confirmation opens. The page's own balance is a
        value handed in by the parent and does not change. */
    method Complete() returns (reported: string)
      requires Inv() && pending.Some?
      modifies this
      ensures Inv() && !isProcessing && showConfirmation && pending == None
      ensures reported == old(pending).value
      ensures selectedPackage == old(selectedPackage) && paymentMethod == old(paymentMethod)
    {
      isProcessing := false;
      showConfirmation := true;
      reported := pending.value;
      pending := None;
    }

    /** The confirmation dialog's `onOpenChange`. */
    method SetConfirmation(show: bool)
      modifies this
      ensures showConfirmation == show
      ensures selectedPackage == old(selectedPackage) && paymentMethod == old(paymentMethod)
      ensures isProcessing == old(isProcessing) && pending == old(pending)
    {
      showConfirmation := show;
    }
  }

  /** The id reported is the one selected when paying, even if the user
      picks another package while the payment is processing. */
  method PayThenReselect(p: Page, other: string) returns (reported: string)
    requires p.Inv() && !p.PayDisabled()
    modifies p
    ensures reported == old(p.selectedPackage)
    ensures p.selectedPackage == other && !p.isProcessing && p.showConfirmation
  {
    p.Pay();
    p.SelectPackage(other);
    reported := p.Complete();
  }
}
