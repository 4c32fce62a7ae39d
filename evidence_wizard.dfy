/** The evidence readiness wizard (src/components/resources/tools/EvidenceWizard.tsx):
    three steps (product category, violation type, evidence upload), the
    catalogue of violations per category and of evidence per violation, and
    completeness of the uploaded evidence. */
module EvidenceWizard {

  import opened Wrappers
  import opened Seqs

  /** Lines 9-14; `type` is a reserved word here. */
  datatype EvidenceRequirement = EvidenceRequirement(
    evidenceType: string,
    description: string,
    required: bool,
    examples: seq<string>)

  /** Lines 16-20. */
  datatype ProductType = ProductType(id: string, name: string, violations: seq<string>)

  /** Lines 22-26. */
  datatype ViolationType = ViolationType(id: string, name: string, evidence: seq<EvidenceRequirement>)

  const TotalSteps: int := 3

  /** Lines 28-54. */
  const ProductTypes: seq<ProductType> := [
    ProductType("electronics", "Electronics & Accessories",
                ["safety", "listing-quality", "authenticity", "restricted-products"]),
    ProductType("food", "Food & Beverages", ["labeling", "safety", "expiration", "listing-quality"]),
    ProductType("cosmetics", "Beauty & Personal Care", ["ingredients", "claims", "labeling", "safety"]),
    ProductType("toys", "Toys & Games", ["safety", "age-requirements", "choking-hazards", "authenticity"]),
    ProductType("apparel", "Clothing & Accessories", ["materials", "size-charts", "authenticity", "listing-quality"])
  ]

  /** Lines 56-141: only three violation ids have an evidence catalogue. */
  const ViolationTypes: seq<ViolationType> := [
    ViolationType("safety", "Product Safety Violation", [
      EvidenceRequirement("Safety Test Reports",
        "Third-party lab reports showing product meets safety standards", true,
        ["CPSC test report", "UL certification", "CE marking documentation"]),
      EvidenceRequirement("Supplier Invoices",
        "Purchase documentation from authorized suppliers", true,
        ["Commercial invoice", "Purchase order", "Bill of lading"]),
      EvidenceRequirement("Certificates of Analysis (COA)",
        "Chemical composition and safety analysis", true,
        ["Material safety data sheet (SDS)", "Chemical analysis report"]),
      EvidenceRequirement("Product Photos",
        "Clear images showing safety labels and markings", false,
        ["Warning labels", "Safety markings", "Age recommendations"])
    ]),
    ViolationType("authenticity", "Authenticity/Counterfeit", [
      EvidenceRequirement("Brand Authorization",
        "Letter from brand owner authorizing you to sell", true,
        ["Authorization letter", "Distribution agreement", "Reseller certificate"]),
      EvidenceRequirement("Purchase Invoices",
        "Documentation showing purchase from authorized source", true,
        ["Supplier invoice", "Distributor receipt", "Wholesale purchase order"]),
      EvidenceRequirement("Product Authenticity Photos",
        "Detailed photos showing authentic product features", true,
        ["Serial numbers", "Holographic stickers", "Brand markings"]),
      EvidenceRequirement("Supply Chain Documentation",
        "Complete trail from manufacturer to you", false,
        ["Import documentation", "Distributor chain records"])
    ]),
    ViolationType("listing-quality", "Listing Quality Issues", [
      EvidenceRequirement("Updated Listing Screenshots",
        "Show corrected product information and images", true,
        ["Fixed title", "Accurate descriptions", "Compliant images"]),
      EvidenceRequirement("Product Specifications",
        "Accurate technical details and measurements", true,
        ["Dimension charts", "Weight specifications", "Material composition"]),
      EvidenceRequirement("Image Compliance Documentation",
        "Proof that images meet Amazon guidelines", false,
        ["Image format compliance", "Resolution verification"])
    ])
  ]

  predicate ProductHasId(p: ProductType, id: string)
  {
    p.id == id
  }

  predicate ViolationHasId(v: ViolationType, id: string)
  {
    v.id == id
  }

  /** `k` is the first position of a category with that id. */
  predicate FirstProduct(products: seq<ProductType>, id: string, k: int)
  {
    0 <= k < |products| && products[k].id == id && forall i :: 0 <= i < k ==> products[i].id != id
  }

  /** `k` is the first position of a violation type with that id. */
  predicate FirstViolation(violations: seq<ViolationType>, id: string, k: int)
  {
    0 <= k < |violations| && violations[k].id == id && forall i :: 0 <= i < k ==> violations[i].id != id
  }

  /** Line 153: `productTypes.find(p => p.id === selectedProduct)`. */
  function FindProduct(products: seq<ProductType>, id: string): (r: Option<ProductType>)
    ensures r.None? <==> forall i :: 0 <= i < |products| ==> products[i].id != id
    ensures r.Some? ==> r.value in products && r.value.id == id
    ensures forall k :: FirstProduct(products, id, k) ==> r == Some(products[k])
  {
    var r := Find(p => ProductHasId(p, id), products);
    assert r.Some? ==> exists k :: FirstProduct(products, id, k) && r.value == products[k];
    r
  }

  /** Line 158, the same lookup among the violation types. */
  function FindViolation(violations: seq<ViolationType>, id: string): (r: Option<ViolationType>)
    ensures r.None? <==> forall i :: 0 <= i < |violations| ==> violations[i].id != id
    ensures r.Some? ==> r.value in violations && r.value.id == id
    ensures forall k :: FirstViolation(violations, id, k) ==> r == Some(violations[k])
  {
    var r := Find(v => ViolationHasId(v, id), violations);
    assert r.Some? ==> exists k :: FirstViolation(violations, id, k) && r.value == violations[k];
    r
  }

  /** Lines 152-155: the violations listed for the selected category, or
      none for an unknown (or unselected) category. */
  function AvailableViolations(products: seq<ProductType>, selectedProduct: string): (r: seq<string>)
    ensures (forall i :: 0 <= i < |products| ==> products[i].id != selectedProduct) ==> r == []
    ensures forall k :: FirstProduct(products, selectedProduct, k) ==> r == products[k].violations
  {
    match FindProduct(products, selectedProduct)
    case None => []
    case Some(p) => p.violations
  }

  /** Lines 157-160: the evidence catalogue of the selected violation, or
      none for an id without one. */
  function CurrentEvidence(violations: seq<ViolationType>, selectedViolation: string): (r: seq<EvidenceRequirement>)
    ensures (forall i :: 0 <= i < |violations| ==> violations[i].id != selectedViolation) ==> r == []
    ensures forall k :: FirstViolation(violations, selectedViolation, k) ==> r == violations[k].evidence
  {
    match FindViolation(violations, selectedViolation)
    case None => []
    case Some(v) => v.evidence
  }

  /** In a catalogue whose ids are unique, every listed category's id gives
      exactly that category's violations. */
  lemma AvailableOfListed(products: seq<ProductType>, k: int)
    requires 0 <= k < |products|
    requires forall i :: 0 <= i < |products| && products[i].id == products[k].id ==> i == k
    ensures AvailableViolations(products, products[k].id) == products[k].violations
  {
    assert FirstProduct(products, products[k].id, k);
  }

  /** Likewise every listed violation type's id gives exactly its evidence. */
  lemma EvidenceOfListed(violations: seq<ViolationType>, k: int)
    requires 0 <= k < |violations|
    requires forall i :: 0 <= i < |violations| && violations[i].id == violations[k].id ==> i == k
    ensures CurrentEvidence(violations, violations[k].id) == violations[k].evidence
  {
    assert FirstViolation(violations, violations[k].id, k);
  }

  /** Lines 248-250: the choices rendered on step 2, one per available id
      that has an evidence catalogue, in the category's order. */
  function RenderedViolations(violations: seq<ViolationType>, ids: seq<string>): (r: seq<ViolationType>)
    ensures |r| <= |ids|
    ensures forall v :: v in r ==> v in violations
  {
    if ids == [] then []
    else RenderedOne(violations, ids[0]) + RenderedViolations(violations, ids[1..])
  }

  /** The choice rendered for one id: its violation type, or nothing. */
  function RenderedOne(violations: seq<ViolationType>, id: string): (r: seq<ViolationType>)
    ensures |r| <= 1 && forall v :: v in r ==> v in violations
  {
    match FindViolation(violations, id)
    case None => []
    case Some(v) => [v]
  }

  /** A choice is rendered for an available id exactly when it has a
      catalogue: ids such as "labeling" are skipped. */
  lemma {:induction false} RenderedViolationsIds(violations: seq<ViolationType>, ids: seq<string>, id: string)
    ensures (exists v :: v in RenderedViolations(violations, ids) && v.id == id) <==>
      id in ids && exists i :: 0 <= i < |violations| && violations[i].id == id
  {
    if ids != [] {
      RenderedViolationsIds(violations, ids[1..], id);
      var head := match FindViolation(violations, ids[0]) case None => [] case Some(v) => [v];
      assert RenderedViolations(violations, ids) == head + RenderedViolations(violations, ids[1..]);
      assert ids == [ids[0]] + ids[1..];
      if ids[0] == id && exists i :: 0 <= i < |violations| && violations[i].id == id {
        assert head[0] in RenderedViolations(violations, ids);
      }
    }
  }

  predicate IsRequired(e: EvidenceRequirement)
  {
    e.required
  }

  predicate IsUploaded(e: EvidenceRequirement, uploaded: seq<string>)
  {
    e.evidenceType in uploaded
  }

  /** Line 175. */
  function RequiredEvidence(evidence: seq<EvidenceRequirement>): (r: seq<EvidenceRequirement>)
    ensures IsSubsequence(r, evidence)
    ensures forall e :: e in r ==> e.required
  {
    FilterIsSubsequence(IsRequired, evidence);
    FilterMembers(IsRequired, evidence);
    Filter(IsRequired, evidence)
  }

  /** Line 176. */
  function UploadedRequiredEvidence(evidence: seq<EvidenceRequirement>, uploaded: seq<string>): (r: seq<EvidenceRequirement>)
    ensures |r| <= |RequiredEvidence(evidence)|
  {
    Filter(e => IsUploaded(e, uploaded), RequiredEvidence(evidence))
  }

  /** Line 177. */
  predicate IsComplete(evidence: seq<EvidenceRequirement>, uploaded: seq<string>)
  {
    |UploadedRequiredEvidence(evidence, uploaded)| == |RequiredEvidence(evidence)|
  }

  /** Complete exactly when every required evidence type has been uploaded;
      with no catalogue the check holds trivially. */
  lemma IsCompleteIff(evidence: seq<EvidenceRequirement>, uploaded: seq<string>)
    ensures IsComplete(evidence, uploaded) <==>
      forall e :: e in evidence && e.required ==> e.evidenceType in uploaded
    ensures evidence == [] ==> IsComplete(evidence, uploaded)
  {
    var req := RequiredEvidence(evidence);
    FilterKeepsLength(e => IsUploaded(e, uploaded), req);
    FilterMembers(IsRequired, evidence);
    forall e | e in evidence && e.required && IsComplete(evidence, uploaded)
      ensures e.evidenceType in uploaded
    {
      var i :| 0 <= i < |req| && req[i] == e;
    }
    if forall e :: e in evidence && e.required ==> e.evidenceType in uploaded {
      forall i | 0 <= i < |req| ensures IsUploaded(req[i], uploaded) {
        assert req[i] in req;
      }
    }
  }

  /** Uploading can only complete the evidence, never undo it. */
  lemma UploadKeepsComplete(evidence: seq<EvidenceRequirement>, uploaded: seq<string>, t: string)
    requires IsComplete(evidence, uploaded)
    ensures IsComplete(evidence, uploaded + [t])
  {
    IsCompleteIff(evidence, uploaded);
    IsCompleteIff(evidence, uploaded + [t]);
  }

  /** A catalogue with the fixture's three ids, in the fixture's order. */
  predicate CatalogueShape(vs: seq<ViolationType>)
  {
    |vs| == 3 && vs[0].id == "safety" && vs[1].id == "authenticity" && vs[2].id == "listing-quality"
  }

  /** The ids of the catalogue, as the lookups see them. */
  lemma ViolationTypesIds()
    ensures CatalogueShape(ViolationTypes)
  {
  }

  /** In such a catalogue an id other than the three has no evidence and no
      rendered choice. */
  lemma MissingFromShape(vs: seq<ViolationType>, id: string)
    requires CatalogueShape(vs)
    requires id != "safety" && id != "authenticity" && id != "listing-quality"
    ensures CurrentEvidence(vs, id) == []
    ensures RenderedViolations(vs, [id]) == []
  {
    assert [id][1..] == [];
  }

  /** An id outside the catalogue, such as "labeling", has no evidence. */
  lemma UncataloguedViolations(id: string)
    requires id != "safety" && id != "authenticity" && id != "listing-quality"
    ensures CurrentEvidence(ViolationTypes, id) == []
    ensures RenderedViolations(ViolationTypes, [id]) == []
  {
    ViolationTypesIds();
    MissingFromShape(ViolationTypes, id);
  }

  lemma ProductTypesFields()
    ensures |ProductTypes| == 5
    ensures ProductTypes[0].id == "electronics" && ProductTypes[1].id == "food"
    ensures ProductTypes[1].violations == ["labeling", "safety", "expiration", "listing-quality"]
  {
  }

  /** For food and beverages, step 2 offers the safety and listing-quality
      choices; "labeling" and "expiration" have no catalogue. */
  lemma FoodChoices()
    ensures AvailableViolations(ProductTypes, "food") == ["labeling", "safety", "expiration", "listing-quality"]
    ensures RenderedViolations(ViolationTypes, AvailableViolations(ProductTypes, "food"))
         == [ViolationTypes[0], ViolationTypes[2]]
  {
    FoodAvailable();
    ViolationTypesIds();
    FoodRendering(ViolationTypes);
  }

  lemma FoodAvailable()
    ensures AvailableViolations(ProductTypes, "food") == ["labeling", "safety", "expiration", "listing-quality"]
  {
    ProductTypesFields();
    FindFirst(p => ProductHasId(p, "food"), ProductTypes, 1);
  }

  /** Rendering two id lists one after the other renders their concatenation. */
  lemma {:induction false} RenderedConcat(vs: seq<ViolationType>, xs: seq<string>, ys: seq<string>)
    ensures RenderedViolations(vs, xs + ys) == RenderedViolations(vs, xs) + RenderedViolations(vs, ys)
  {
    if xs == [] {
      assert xs + ys == ys;
    } else {
      assert (xs + ys)[0] == xs[0];
      assert (xs + ys)[1..] == xs[1..] + ys;
      RenderedConcat(vs, xs[1..], ys);
    }
  }

  lemma FoundInShape(vs: seq<ViolationType>, k: int)
    requires CatalogueShape(vs) && 0 <= k < 3
    ensures RenderedViolations(vs, [vs[k].id]) == [vs[k]]
  {
    FindFirst(v => ViolationHasId(v, vs[k].id), vs, k);
    assert [vs[k].id][1..] == [];
  }

  /** Rendering four ids renders each in turn. */
  lemma RenderedFour(vs: seq<ViolationType>, a: string, b: string, c: string, d: string)
    ensures RenderedViolations(vs, [a, b, c, d]) ==
      (RenderedViolations(vs, [a]) + RenderedViolations(vs, [b]))
      + (RenderedViolations(vs, [c]) + RenderedViolations(vs, [d]))
  {
    assert [a, b, c, d] == [a, b] + [c, d];
    assert [a, b] == [a] + [b];
    assert [c, d] == [c] + [d];
    RenderedConcat(vs, [a, b], [c, d]);
    RenderedConcat(vs, [a], [b]);
    RenderedConcat(vs, [c], [d]);
  }

  lemma FoodRendering(vs: seq<ViolationType>)
    requires CatalogueShape(vs)
    ensures RenderedViolations(vs, ["labeling", "safety", "expiration", "listing-quality"]) == [vs[0], vs[2]]
  {
    RenderedFour(vs, "labeling", "safety", "expiration", "listing-quality");
    MissingFromShape(vs, "labeling");
    MissingFromShape(vs, "expiration");
    FoundInShape(vs, 0);
    FoundInShape(vs, 2);
    assert RenderedViolations(vs, ["safety"]) == [vs[0]] by {
      assert [vs[0].id] == ["safety"];
    }
    assert RenderedViolations(vs, ["listing-quality"]) == [vs[2]] by {
      assert [vs[2].id] == ["listing-quality"];
    }
    assert ([] + [vs[0]]) + ([] + [vs[2]]) == [vs[0], vs[2]];
  }

  class WizardState {
    var currentStep: int
    var selectedProduct: string
    var selectedViolation: string
    var uploadedFiles: seq<string>

    predicate Valid()
      reads this
    {
      1 <= currentStep <= TotalSteps
    }

    /** Lines 144-147. */
    constructor ()
      ensures Valid()
      ensures currentStep == 1 && selectedProduct == "" && selectedViolation == "" && uploadedFiles == []
    {
      currentStep, selectedProduct, selectedViolation, uploadedFiles := 1, "", "", [];
    }

    /** Lines 167-169. */
    method NextStep()
      requires Valid()
      modifies this
      ensures Valid()
      ensures currentStep == if old(currentStep) < TotalSteps then old(currentStep) + 1 else old(currentStep)
      ensures selectedProduct == old(selectedProduct) && selectedViolation == old(selectedViolation)
      ensures uploadedFiles == old(uploadedFiles)
    {
      if currentStep < TotalSteps {
        currentStep := currentStep + 1;
      }
    }

    /** Lines 171-173. */
    method PrevStep()
      requires Valid()
      modifies this
      ensures Valid()
      ensures currentStep == if old(currentStep) > 1 then old(currentStep) - 1 else old(currentStep)
      ensures selectedProduct == old(selectedProduct) && selectedViolation == old(selectedViolation)
      ensures uploadedFiles == old(uploadedFiles)
    {
      if currentStep > 1 {
        currentStep := currentStep - 1;
      }
    }

    /** Lines 226 and 280: "Next Step" needs a category on step 1 and a
        violation on step 2. */
    predicate NextEnabled()
      reads this
    {
      (currentStep == 1 && selectedProduct != "") || (currentStep == 2 && selectedViolation != "")
    }

    /** A click on "Next Step", which does nothing while the button is disabled. */
    method ClickNext()
      requires Valid()
      modifies this
      ensures Valid()
      ensures old(NextEnabled()) ==> currentStep == old(currentStep) + 1
      ensures !old(NextEnabled()) ==> currentStep == old(currentStep)
      ensures selectedProduct == old(selectedProduct) && selectedViolation == old(selectedViolation)
      ensures uploadedFiles == old(uploadedFiles)
    {
      if NextEnabled() {
        NextStep();
      }
    }

    method SelectProduct(id: string)
      modifies this
      ensures selectedProduct == id
      ensures currentStep == old(currentStep) && selectedViolation == old(selectedViolation)
      ensures uploadedFiles == old(uploadedFiles)
    {
      selectedProduct := id;
    }

    method SelectViolation(id: string)
      modifies this
      ensures selectedViolation == id
      ensures currentStep == old(currentStep) && selectedProduct == old(selectedProduct)
      ensures uploadedFiles == old(uploadedFiles)
    {
      selectedViolation := id;
    }

    /** Line 346: an upload button is disabled once its type is uploaded. */
    predicate UploadEnabled(evidenceType: string)
      reads this
    {
      evidenceType !in uploadedFiles
    }

    /** Lines 162-165: the type is appended; afterwards its button is
        disabled, and completeness once reached is kept. */
    method HandleFileUpload(evidenceType: string)
      modifies this
      ensures uploadedFiles == old(uploadedFiles) + [evidenceType]
      ensures !UploadEnabled(evidenceType)
      ensures forall evidence :: IsComplete(evidence, old(uploadedFiles)) ==> IsComplete(evidence, uploadedFiles)
      ensures currentStep == old(currentStep) && selectedProduct == old(selectedProduct)
      ensures selectedViolation == old(selectedViolation)
    {
      forall evidence | IsComplete(evidence, uploadedFiles)
        ensures IsComplete(evidence, uploadedFiles + [evidenceType])
      {
        UploadKeepsComplete(evidence, uploadedFiles, evidenceType);
      }
      uploadedFiles := uploadedFiles + [evidenceType];
    }
  }
}
