/**
 * The admin "Create New Plant" page (src/app/admin/create/page.tsx): the stock-status
 * preview, HTML-tag stripping and per-field character limits, the ordered list of
 * "N characters too long" errors built by the submit handler, the mapping of form
 * fields to the row inserted into the `plants` table, and the category checkboxes.
 * The database is not modelled: the outcome of the insert is a parameter, and every
 * row the page sends is appended to `plantInserts` so that "no insert happened" is a
 * statement about that log.
 */
module CreatePage {
  import opened Text

  // ---------------------------------------------------------------------------
  // Stock status preview

  datatype StockStatus = OutOfStock | LowStock | Available
  {
    function Label(): string
    {
      match this
      case OutOfStock => "Out of Stock"
      case LowStock => "Low Stock"
      case Available => "Available"
    }

    function Color(): string
    {
      match this
      case OutOfStock => "destructive"
      case LowStock => "warning"
      case Available => "success"
    }
  }

  /**
   * `getStockStatus`: zero is out of stock whatever the minimum; any other quantity
   * up to the minimum is low stock; anything above it is available. Quantities come
   * from `parseInt(...) || 0` and may be negative.
   */
  function GetStockStatus(quantity: int, minimumStock: int): (r: StockStatus)
    ensures r == OutOfStock <==> quantity == 0
    ensures r == LowStock <==> quantity != 0 && quantity <= minimumStock
    ensures r == Available <==> quantity != 0 && quantity > minimumStock
  {
    if quantity == 0 then OutOfStock
    else if quantity <= minimumStock then LowStock
    else Available
  }

  /** The "Shortage: N units below minimum stock level" line, when it is shown. */
  function Shortage(quantity: int, minimumStock: int): (r: Option<int>)
    ensures r.Some? <==> 0 < quantity <= minimumStock
    ensures r.Some? ==> r.value >= 0 && quantity + r.value == minimumStock
  {
    if quantity > 0 && quantity <= minimumStock then Some(minimumStock - quantity) else None
  }

  /** The shortage line appears exactly for positive quantities the preview calls low stock. */
  lemma ShortageOnlyWhenLow(quantity: int, minimumStock: int)
    ensures Shortage(quantity, minimumStock).Some?
        <==> quantity > 0 && GetStockStatus(quantity, minimumStock) == LowStock
  {
  }

  // ---------------------------------------------------------------------------
  // HTML tag stripping: `s.replace(/<[^>]*>/g, '')`

  /**
   * Removes, from left to right, every span that starts with `<` and ends at the
   * next `>`. A `<` with no `>` anywhere after it cannot start a match, and then
   * neither can any later `<`, so the rest of the text is kept as it is.
   */
  function StripTags(s: string): (r: string)
    ensures |r| <= |s|
    decreases |s|
  {
    if s == [] then []
    else if s[0] == '<' then
      match IndexOf(s, ">")
      case Some(j) => StripTags(s[j + 1..])
      case None => s
    else [s[0]] + StripTags(s[1..])
  }

  /** No `<` is followed, anywhere later, by a `>`: the text holds no tag. */
  predicate NoTag(t: string)
  {
    forall i, j :: 0 <= i < j < |t| && t[i] == '<' ==> t[j] != '>'
  }

  lemma NoCloseMeansNoTag(s: string)
    requires IndexOf(s, ">").None?
    ensures NoTag(s)
  {
    forall j | 0 <= j < |s| ensures s[j] != '>' {
      assert !OccursAt(s, ">", j);
      assert s[j..j + 1] == [s[j]];
    }
  }

  /** Stripping leaves no tag behind. */
  lemma {:induction false} StripTagsLeavesNoTag(s: string)
    ensures NoTag(StripTags(s))
    decreases |s|
  {
    if s == [] {
    } else if s[0] == '<' {
      match IndexOf(s, ">")
      case Some(j) =>
        assert s[j] == '>' by { assert s[j..j + 1] == ">"; }
        StripTagsLeavesNoTag(s[j + 1..]);
      case None =>
        NoCloseMeansNoTag(s);
    } else {
      StripTagsLeavesNoTag(s[1..]);
      var rest := StripTags(s[1..]);
      assert StripTags(s) == [s[0]] + rest;
    }
  }

  /** Text without a tag is left unchanged. */
  lemma {:induction false} StripTagsNoTag(t: string)
    requires NoTag(t)
    ensures StripTags(t) == t
    decreases |t|
  {
    if t != [] {
      if t[0] == '<' {
        match IndexOf(t, ">")
        case Some(j) =>
          assert false;
        case None =>
      } else {
        assert NoTag(t[1..]) by {
          forall i, j | 0 <= i < j < |t[1..]| && t[1..][i] == '<' ensures t[1..][j] != '>' {
            assert t[i + 1] == '<';
          }
        }
        StripTagsNoTag(t[1..]);
      }
    }
  }

  /** Stripping twice is stripping once. */
  lemma StripTagsIdempotent(s: string)
    ensures StripTags(StripTags(s)) == StripTags(s)
  {
    StripTagsLeavesNoTag(s);
    StripTagsNoTag(StripTags(s));
  }

  /** Text with no `<` at all is unchanged. */
  lemma StripTagsWithoutOpen(s: string)
    requires forall i :: 0 <= i < |s| ==> s[i] != '<'
    ensures StripTags(s) == s
  {
    StripTagsNoTag(s);
  }

  /** A leading tag `<x>` (with no `>` inside) is removed and nothing else of it survives. */
  lemma StripLeadingTag(x: string, rest: string)
    requires forall i :: 0 <= i < |x| ==> x[i] != '>'
    ensures StripTags("<" + x + ">" + rest) == StripTags(rest)
  {
    var s := "<" + x + ">" + rest;
    var k := |x| + 1;
    assert s[k..k + 1] == ">";
    assert OccursAt(s, ">", k);
    forall j | 0 <= j < k ensures !OccursAt(s, ">", j) {
      assert s[j..j + 1] == [s[j]];
      if j > 0 { assert s[j] == x[j - 1]; }
    }
    assert IndexOf(s, ">") == Some(k);
    assert s[k + 1..] == rest;
  }

  // ---------------------------------------------------------------------------
  // Form state

  datatype FormState = FormState(
    commonName: string,
    scientificName: string,
    description: string,
    habitat: string,
    careTips: string,
    categoryIds: seq<string>,
    isFeatured: bool,
    imageUrl: Option<string>,
    family: string,
    plantPartsUsed: string,
    uses: string,
    sku: string,
    quantity: int,
    minimumStock: int,
    unitPrice: string,
    location: string,
    section: string,
    supplier: string,
    supplierContact: string,
    dateAcquired: string,
    inventoryNotes: string)

  /** The form as the page first shows it, and as it is reset after a successful create. */
  function EmptyForm(today: string): (f: FormState)
    ensures f.quantity == 0 && f.minimumStock == 5 && f.categoryIds == [] && f.imageUrl == None
    ensures f.dateAcquired == today && f.commonName == "" && !f.isFeatured
    ensures f.scientificName == "" && f.description == "" && f.habitat == "" && f.careTips == ""
    ensures f.family == "" && f.plantPartsUsed == "" && f.uses == "" && f.sku == "" && f.unitPrice == ""
    ensures f.location == "" && f.section == "" && f.supplier == "" && f.supplierContact == ""
    ensures f.inventoryNotes == ""
  {
    FormState("", "", "", "", "", [], false, None, "", "", "", "", 0, 5, "", "", "", "", "", today, "")
  }

  // ---------------------------------------------------------------------------
  // Character limits

  /** The six rich-text fields with limits, in the order the submit handler checks them. */
  datatype LimitedField = Description | Habitat | CareTips | InventoryNotes | PlantPartsUsed | Uses

  const CheckOrder: seq<LimitedField> := [Description, Habitat, CareTips, InventoryNotes, PlantPartsUsed, Uses]

  /** `LIMITS`. */
  function Limit(f: LimitedField): nat
  {
    match f
    case Description => 5000
    case Habitat => 2000
    case CareTips => 3000
    case InventoryNotes => 1000
    case PlantPartsUsed => 500
    case Uses => 2000
  }

  function FieldText(form: FormState, f: LimitedField): string
  {
    match f
    case Description => form.description
    case Habitat => form.habitat
    case CareTips => form.careTips
    case InventoryNotes => form.inventoryNotes
    case PlantPartsUsed => form.plantPartsUsed
    case Uses => form.uses
  }

  /** Visible length of a field: UTF-16 length of the text once tags are stripped. */
  function TextLength(form: FormState, f: LimitedField): nat
  {
    JsLength(StripTags(FieldText(form, f)))
  }

  predicate OverLimit(form: FormState, f: LimitedField)
  {
    TextLength(form, f) > Limit(f)
  }

  /** `hasOverLimitFields`, as the page writes it. */
  predicate HasOverLimitFields(form: FormState)
  {
    JsLength(StripTags(form.description)) > 5000
    || JsLength(StripTags(form.habitat)) > 2000
    || JsLength(StripTags(form.careTips)) > 3000
    || JsLength(StripTags(form.inventoryNotes)) > 1000
    || JsLength(StripTags(form.plantPartsUsed)) > 500
    || JsLength(StripTags(form.uses)) > 2000
  }

  /** `hasOverLimitFields` holds exactly when some field is over its `LIMITS` entry. */
  lemma HasOverLimitFieldsMeaning(form: FormState)
    ensures HasOverLimitFields(form) <==> exists f :: f in CheckOrder && OverLimit(form, f)
  {
    assert CheckOrder == [Description, Habitat, CareTips, InventoryNotes, PlantPartsUsed, Uses];
    if HasOverLimitFields(form) {
      if OverLimit(form, Description) {
        assert Description in CheckOrder;
      } else if OverLimit(form, Habitat) {
        assert Habitat in CheckOrder;
      } else if OverLimit(form, CareTips) {
        assert CareTips in CheckOrder;
      } else if OverLimit(form, InventoryNotes) {
        assert InventoryNotes in CheckOrder;
      } else if OverLimit(form, PlantPartsUsed) {
        assert PlantPartsUsed in CheckOrder;
      } else {
        assert OverLimit(form, Uses) && Uses in CheckOrder;
      }
    }
  }

  // ---------------------------------------------------------------------------
  // Validation errors

  /** One "N characters too long" error: the field and by how much it is over. */
  datatype LengthError = LengthError(field: LimitedField, excess: nat)

  /** The error for `f`, if it is over its limit. */
  function ErrorIfOver(form: FormState, f: LimitedField): seq<LengthError>
  {
    if OverLimit(form, f) then [LengthError(f, TextLength(form, f) - Limit(f))] else []
  }

  /** The errors for `fields`, in that order: one per field over its limit. */
  function ErrorsFor(form: FormState, fields: seq<LimitedField>): (r: seq<LengthError>)
    ensures |r| <= |fields|
  {
    if fields == [] then []
    else
      ErrorIfOver(form, fields[0]) + ErrorsFor(form, fields[1..])
  }

  /** Every error names one of `fields` that is over its limit, and reports by how much. */
  lemma {:induction false} ErrorsForSound(form: FormState, fields: seq<LimitedField>)
    ensures forall e :: e in ErrorsFor(form, fields) ==> e.field in fields && OverLimit(form, e.field)
    ensures forall e :: e in ErrorsFor(form, fields) ==>
      e.excess > 0 && e.excess == TextLength(form, e.field) - Limit(e.field)
  {
    if fields != [] {
      ErrorsForSound(form, fields[1..]);
      assert ErrorsFor(form, fields) == ErrorIfOver(form, fields[0]) + ErrorsFor(form, fields[1..]);
    }
  }

  /** Every over-limit field among `fields` gets its error, with its excess. */
  lemma {:induction false} ErrorsForComplete(form: FormState, fields: seq<LimitedField>, f: LimitedField)
    requires f in fields && OverLimit(form, f)
    ensures LengthError(f, TextLength(form, f) - Limit(f)) in ErrorsFor(form, fields)
  {
    var head := ErrorIfOver(form, fields[0]);
    var tail := ErrorsFor(form, fields[1..]);
    assert ErrorsFor(form, fields) == head + tail;
    if fields[0] == f {
      assert head[0] == LengthError(f, TextLength(form, f) - Limit(f));
      assert head[0] in head + tail;
    } else {
      ErrorsForComplete(form, fields[1..], f);
      assert LengthError(f, TextLength(form, f) - Limit(f)) in head + tail;
    }
  }

  /** The error list the submit handler should build: one per over-limit field, in check order. */
  function ExpectedErrors(form: FormState): seq<LengthError>
  {
    ErrorsFor(form, CheckOrder)
  }

  /** Position of a field in the check order. */
  function Rank(f: LimitedField): nat
  {
    match f
    case Description => 0
    case Habitat => 1
    case CareTips => 2
    case InventoryNotes => 3
    case PlantPartsUsed => 4
    case Uses => 5
  }

  /** The errors name distinct fields, in the order description, habitat, care tips, notes, parts used, uses. */
  lemma {:induction false} ErrorsForOrdered(form: FormState, fields: seq<LimitedField>)
    requires forall i, j :: 0 <= i < j < |fields| ==> Rank(fields[i]) < Rank(fields[j])
    ensures forall i, j :: 0 <= i < j < |ErrorsFor(form, fields)| ==>
      Rank(ErrorsFor(form, fields)[i].field) < Rank(ErrorsFor(form, fields)[j].field)
  {
    if fields != [] {
      ErrorsForOrdered(form, fields[1..]);
      ErrorsForSound(form, fields[1..]);
      var rest := ErrorsFor(form, fields[1..]);
      forall e | e in rest ensures Rank(fields[0]) < Rank(e.field) {
        var k :| 0 <= k < |fields[1..]| && fields[1..][k] == e.field;
        assert fields[k + 1] == e.field;
      }
    }
  }

  lemma ExpectedErrorsOrdered(form: FormState)
    ensures forall i, j :: 0 <= i < j < |ExpectedErrors(form)| ==>
      Rank(ExpectedErrors(form)[i].field) < Rank(ExpectedErrors(form)[j].field)
  {
    ErrorsForOrdered(form, CheckOrder);
  }

  /** There is an error exactly when `hasOverLimitFields` holds. */
  lemma ExpectedErrorsIffOverLimit(form: FormState)
    ensures |ExpectedErrors(form)| > 0 <==> HasOverLimitFields(form)
  {
    HasOverLimitFieldsMeaning(form);
    ErrorsForSound(form, CheckOrder);
    if HasOverLimitFields(form) {
      var f :| f in CheckOrder && OverLimit(form, f);
      ErrorsForComplete(form, CheckOrder, f);
      assert LengthError(f, TextLength(form, f) - Limit(f)) in ExpectedErrors(form);
    }
    if |ExpectedErrors(form)| > 0 {
      assert ExpectedErrors(form)[0] in ExpectedErrors(form);
    }
  }

  /** Advancing one field along the check order keeps `errors` a prefix of the expected list. */
  lemma ErrorsForAdvance(form: FormState, errors: seq<LengthError>, k: nat)
    requires k < |CheckOrder|
    requires errors + ErrorsFor(form, CheckOrder[k..]) == ExpectedErrors(form)
    ensures (errors + ErrorIfOver(form, CheckOrder[k])) + ErrorsFor(form, CheckOrder[k + 1..]) == ExpectedErrors(form)
  {
    var rest := CheckOrder[k..];
    assert rest[0] == CheckOrder[k] && rest[1..] == CheckOrder[k + 1..];
    var head := ErrorIfOver(form, CheckOrder[k]);
    var tail := ErrorsFor(form, CheckOrder[k + 1..]);
    assert ErrorsFor(form, rest) == head + tail;
    assert (errors + head) + tail == errors + (head + tail);
  }

  /** One of the six tests of `handleCreate`: push the field's error when its stripped text is too long. */
  method CheckLength(form: FormState, f: LimitedField, errors: seq<LengthError>) returns (r: seq<LengthError>)
    ensures r == errors + ErrorIfOver(form, f)
    ensures |r| == |errors| + (if TextLength(form, f) > Limit(f) then 1 else 0)
  {
    var length := TextLength(form, f);
    r := errors;
    if length > Limit(f) {
      r := r + [LengthError(f, length - Limit(f))];
    }
  }

  /**
   * The length checks of `handleCreate`: description, habitat, care tips, inventory
   * notes, plant parts used and uses are checked in that order, each adding its error
   * when the stripped text is over its limit.
   */
  method ValidateLengths(form: FormState) returns (errors: seq<LengthError>)
    ensures errors == ExpectedErrors(form)
  {
    errors := [];
    assert CheckOrder[0..] == CheckOrder;
    ErrorsForAdvance(form, errors, 0);
    errors := CheckLength(form, Description, errors);
    ErrorsForAdvance(form, errors, 1);
    errors := CheckLength(form, Habitat, errors);
    ErrorsForAdvance(form, errors, 2);
    errors := CheckLength(form, CareTips, errors);
    ErrorsForAdvance(form, errors, 3);
    errors := CheckLength(form, InventoryNotes, errors);
    ErrorsForAdvance(form, errors, 4);
    errors := CheckLength(form, PlantPartsUsed, errors);
    ErrorsForAdvance(form, errors, 5);
    errors := CheckLength(form, Uses, errors);
    assert CheckOrder[6..] == [];
  }

  /** The sentence shown for one error. */
  function ErrorMessage(e: LengthError): string
  {
    var n := NatToString(e.excess);
    match e.field
    case Description => "Description is " + n + " characters too long"
    case Habitat => "Habitat is " + n + " characters too long"
    case CareTips => "Care instructions are " + n + " characters too long"
    case InventoryNotes => "Inventory notes are " + n + " characters too long"
    case PlantPartsUsed => "Plant parts used is " + n + " characters too long"
    case Uses => "Uses is " + n + " characters too long"
  }

  function ErrorMessages(errors: seq<LengthError>): (r: seq<string>)
    ensures |r| == |errors|
  {
    if errors == [] then [] else [ErrorMessage(errors[0])] + ErrorMessages(errors[1..])
  }

  /** The status line for a failed validation. */
  function ValidationStatus(errors: seq<LengthError>): string
  {
    "\U{274C} " + Join(ErrorMessages(errors), ". ") + ". Please shorten the text."
  }

  const WaitStatus: string := "\U{26A0}\U{FE0F} Please wait for image upload to complete"
  const CreatingStatus: string := "Creating plant..."
  const CreatedStatus: string := "\U{2713} Plant created successfully!"

  /** The submit button is disabled while saving, while an image uploads, or while a field is over its limit. */
  predicate SubmitDisabled(loading: bool, imageUploading: bool, form: FormState)
  {
    loading || imageUploading || HasOverLimitFields(form)
  }

  /** A submit through the enabled button always gets past both early returns of `handleCreate`. */
  lemma EnabledSubmitPassesChecks(loading: bool, imageUploading: bool, form: FormState)
    requires !SubmitDisabled(loading, imageUploading, form)
    ensures !imageUploading && ExpectedErrors(form) == []
  {
    ExpectedErrorsIffOverLimit(form);
  }

  // ---------------------------------------------------------------------------
  // Insert payload

  /** The row sent to the `plants` table (`plantData`). */
  datatype PlantPayload = PlantPayload(
    commonName: string,
    scientificName: Option<string>,
    description: Option<string>,
    habitat: Option<string>,
    careInstructions: Option<string>,
    categoryId: Option<string>,
    isFeatured: bool,
    imageUrl: Option<string>,
    createdAt: string,
    family: Option<string>,
    plantPartsUsed: Option<string>,
    uses: Option<string>,
    sku: Option<string>,
    quantity: int,
    minimumStock: int,
    unitPrice: Option<string>,
    location: Option<string>,
    section: Option<string>,
    supplier: Option<string>,
    supplierContact: Option<string>,
    dateAcquired: string,
    inventoryNotes: Option<string>)

  /** `value || null` for a text field. */
  function OrNull(s: string): (r: Option<string>)
    ensures r.None? <==> s == ""
    ensures r.Some? ==> r.value == s
  {
    if s == "" then None else Some(s)
  }

  /**
   * `plantData`: empty optional texts become null, the legacy `category_id` is the
   * first selected category, and the stock figures pass through. `unitPrice` is the
   * raw text handed to `parseFloat`. `createdAt` and `today` stand for the clock.
   */
  function BuildPayload(form: FormState, createdAt: string, today: string): (p: PlantPayload)
    ensures p.categoryId.Some? <==> |form.categoryIds| > 0
    ensures p.categoryId.Some? ==> p.categoryId.value == form.categoryIds[0]
    ensures p.quantity == form.quantity && p.minimumStock == form.minimumStock
    ensures p.commonName == form.commonName && p.imageUrl == form.imageUrl && p.isFeatured == form.isFeatured
    ensures p.description == OrNull(form.description) && p.habitat == OrNull(form.habitat)
    ensures p.careInstructions == OrNull(form.careTips) && p.inventoryNotes == OrNull(form.inventoryNotes)
    ensures p.scientificName == OrNull(form.scientificName) && p.family == OrNull(form.family)
    ensures p.plantPartsUsed == OrNull(form.plantPartsUsed) && p.uses == OrNull(form.uses)
    ensures p.sku == OrNull(form.sku) && p.location == OrNull(form.location) && p.section == OrNull(form.section)
    ensures p.supplier == OrNull(form.supplier) && p.supplierContact == OrNull(form.supplierContact)
    ensures p.unitPrice == OrNull(form.unitPrice) && p.createdAt == createdAt
    ensures p.dateAcquired == (if form.dateAcquired == "" then today else form.dateAcquired)
  {
    PlantPayload(
      form.commonName,
      OrNull(form.scientificName),
      OrNull(form.description),
      OrNull(form.habitat),
      OrNull(form.careTips),
      if |form.categoryIds| > 0 then Some(form.categoryIds[0]) else None,
      form.isFeatured,
      form.imageUrl,
      createdAt,
      OrNull(form.family),
      OrNull(form.plantPartsUsed),
      OrNull(form.uses),
      OrNull(form.sku),
      form.quantity,
      form.minimumStock,
      OrNull(form.unitPrice),
      OrNull(form.location),
      OrNull(form.section),
      OrNull(form.supplier),
      OrNull(form.supplierContact),
      if form.dateAcquired == "" then today else form.dateAcquired,
      OrNull(form.inventoryNotes))
  }

  /** One row of the `plant_categories` junction table. */
  datatype CategoryLink = CategoryLink(plantId: string, categoryId: string)

  function CategoryLinks(plantId: string, ids: seq<string>): (r: seq<CategoryLink>)
    ensures |r| == |ids|
    ensures forall i :: 0 <= i < |ids| ==> r[i] == CategoryLink(plantId, ids[i])
  {
    if ids == [] then [] else [CategoryLink(plantId, ids[0])] + CategoryLinks(plantId, ids[1..])
  }

  // ---------------------------------------------------------------------------
  // Database error messages

  /** A failed insert as the client reports it. */
  datatype DbError = DbError(code: string, message: string)

  /** The outcome of `insert([plantData]).select().single()`. */
  datatype InsertOutcome = Inserted(plantId: string) | InsertFailed(error: DbError)

  predicate IsWordChar(c: char)
  {
    ('a' <= c <= 'z') || ('A' <= c <= 'Z') || ('0' <= c <= '9') || c == '_'
  }

  /**
   * The capture of `/chk_(\w+)_length/` at a `chk_` found at index `p`: the longest
   * word run after `chk_` that is followed by `_length` inside the same run.
   */
  function ConstraintNameAt(msg: string, p: nat): (r: Option<string>)
    requires p + 4 <= |msg|
  {
    var w := PrefixWhile(msg[p + 4..], IsWordChar);
    var word := msg[p + 4..][..w];
    LongestBeforeLength(word, if w >= 8 then w - 7 else 0)
  }

  /** The largest `k >= 1`, at most `k0`, with `_length` at `word[k..]`. */
  function LongestBeforeLength(word: string, k0: nat): (r: Option<string>)
    requires k0 <= |word|
    ensures r.Some? ==> |r.value| >= 1 && OccursAt(word, "_length", |r.value|)
  {
    if k0 == 0 then None
    else if OccursAt(word, "_length", k0) then Some(word[..k0])
    else LongestBeforeLength(word, k0 - 1)
  }

  /** The first `chk_` (at or after `from`) whose word run contains `_length`. */
  function ConstraintName(msg: string, from: nat): Option<string>
    requires from <= |msg|
    decreases |msg| - from
  {
    match IndexFrom(msg, "chk_", from)
    case None => None
    case Some(p) =>
      match ConstraintNameAt(msg, p)
      case Some(n) => Some(n)
      case None => if p + 1 <= |msg| then ConstraintName(msg, p + 1) else None
  }

  /** `s.replace(/_/g, ' ')`. */
  function UnderscoresToSpaces(s: string): (r: string)
    ensures |r| == |s|
  {
    seq(|s|, i requires 0 <= i < |s| => if s[i] == '_' then ' ' else s[i])
  }

  /** The raw length of the field a constraint message names, checked in the page's order. */
  function ConstraintFieldLength(msg: string, form: FormState): nat
  {
    if Contains(msg, "care_instructions") then JsLength(form.careTips)
    else if Contains(msg, "description") then JsLength(form.description)
    else if Contains(msg, "habitat") then JsLength(form.habitat)
    else if Contains(msg, "plant_parts_used") then JsLength(form.plantPartsUsed)
    else if Contains(msg, "uses") then JsLength(form.uses)
    else if Contains(msg, "inventory_notes") then JsLength(form.inventoryNotes)
    else 0
  }

  /** The message for a violated `chk_<field>_length` constraint. */
  function ConstraintMessage(msg: string, form: FormState): string
  {
    var fieldName := match ConstraintName(msg, 0)
      case Some(n) => UnderscoresToSpaces(n)
      case None => "field";
    "\U{274C} Database constraint error: " + fieldName + " is too long ("
      + NatToString(ConstraintFieldLength(msg, form))
      + " characters including HTML tags). The database limit may not have been updated. "
      + "Please run the SQL migration in docs/migrations/010_update_length_constraints_for_html.sql"
  }

  /** The message the page shows for a failed insert. */
  function InsertErrorMessage(err: DbError, form: FormState): string
  {
    if err.code == "PGRST116" then "Table 'plants' not found. Please run database migrations."
    else if err.code == "23505" then "A plant with this name already exists."
    else if err.code == "42501" then "Permission denied. Please check Row Level Security policies."
    else if Contains(err.message, "chk_") && Contains(err.message, "length") then
      ConstraintMessage(err.message, form)
    else if err.message == "" then "Unknown database error"
    else err.message
  }

  /** The three recognised error codes each get their own fixed message. */
  lemma KnownCodeMessages(err: DbError, form: FormState)
    ensures err.code == "PGRST116" ==>
      InsertErrorMessage(err, form) == "Table 'plants' not found. Please run database migrations."
    ensures err.code == "23505" ==> InsertErrorMessage(err, form) == "A plant with this name already exists."
    ensures err.code == "42501" ==>
      InsertErrorMessage(err, form) == "Permission denied. Please check Row Level Security policies."
  {
    assert "PGRST116"[0] == 'P' && "23505"[0] == '2' && "42501"[0] == '4';
  }

  /**
   * Any other error shows a constraint message when the text names a `chk_` length
   * check, and otherwise the database's own text, or a fixed one when that is empty.
   */
  lemma OtherErrorMessages(err: DbError, form: FormState)
    requires err.code != "PGRST116" && err.code != "23505" && err.code != "42501"
    ensures Contains(err.message, "chk_") && Contains(err.message, "length") ==>
      InsertErrorMessage(err, form) == ConstraintMessage(err.message, form)
    ensures !(Contains(err.message, "chk_") && Contains(err.message, "length")) ==>
      InsertErrorMessage(err, form) == (if err.message == "" then "Unknown database error" else err.message)
  {
  }

  /** The status line after a failed insert. */
  function FailureStatus(err: DbError, form: FormState): string
  {
    "\U{2717} Error: " + InsertErrorMessage(err, form)
  }

  // ---------------------------------------------------------------------------
  // Category checkboxes

  /** `ids.filter(id => id !== x)`. */
  function RemoveAll(ids: seq<string>, x: string): (r: seq<string>)
    ensures x !in r
    ensures forall y :: y != x ==> multiset(r)[y] == multiset(ids)[y]
    ensures forall y :: y in r ==> y in ids
    ensures IsSubsequence(r, ids)
  {
    if ids == [] then []
    else
      assert ids == [ids[0]] + ids[1..];
      if ids[0] == x then RemoveAll(ids[1..], x) else [ids[0]] + RemoveAll(ids[1..], x)
  }

  /** Removal works piecewise, so the ids that stay keep their relative order. */
  lemma {:induction false} RemoveAllAppend(a: seq<string>, b: seq<string>, x: string)
    ensures RemoveAll(a + b, x) == RemoveAll(a, x) + RemoveAll(b, x)
  {
    if a == [] {
      assert a + b == b;
    } else {
      var ab := a + b;
      assert ab[0] == a[0] && ab[1..] == a[1..] + b;
      RemoveAllAppend(a[1..], b, x);
    }
  }

  /** After removal, the first id is the first one in `ids` that differs from `x`. */
  lemma {:induction false} RemoveAllFirst(ids: seq<string>, x: string, k: nat)
    requires k < |ids| && ids[k] != x
    requires forall j :: 0 <= j < k ==> ids[j] == x
    ensures RemoveAll(ids, x) != [] && RemoveAll(ids, x)[0] == ids[k]
  {
    if k > 0 {
      RemoveAllFirst(ids[1..], x, k - 1);
    }
  }

  /** The selection after a checkbox change: appended on check, every copy removed on uncheck. */
  function ToggledCategories(ids: seq<string>, id: string, checked: bool): (r: seq<string>)
    ensures checked ==> r == ids + [id]
    ensures !checked ==> id !in r && forall y :: y != id ==> multiset(r)[y] == multiset(ids)[y]
    ensures !checked ==> IsSubsequence(r, ids)
  {
    if checked then ids + [id] else RemoveAll(ids, id)
  }

  /**
   * Unchecking `x` makes the legacy `category_id` the first selected id other than `x`:
   * the order the boxes were ticked in decides it.
   */
  lemma UncheckedCategoryId(form: FormState, x: string, k: nat, createdAt: string, today: string)
    requires k < |form.categoryIds| && form.categoryIds[k] != x
    requires forall j :: 0 <= j < k ==> form.categoryIds[j] == x
    ensures BuildPayload(form.(categoryIds := ToggledCategories(form.categoryIds, x, false)), createdAt, today).categoryId
      == Some(form.categoryIds[k])
  {
    RemoveAllFirst(form.categoryIds, x, k);
  }

  // ---------------------------------------------------------------------------
  // The page component

  class CreatePageState {
    var form: FormState
    var imageUploading: bool
    var loading: bool
    var status: Option<string>
    /** Every row sent to the `plants` table, in order. */
    var plantInserts: seq<PlantPayload>
    /** Every batch of rows sent to the `plant_categories` junction table. */
    var linkInserts: seq<seq<CategoryLink>>
    /** Every `router.push` target, in order. */
    var navigations: seq<string>

    constructor(today: string)
      ensures form == EmptyForm(today) && !imageUploading && !loading && status == None
      ensures plantInserts == [] && linkInserts == [] && navigations == []
    {
      form := EmptyForm(today);
      imageUploading := false;
      loading := false;
      status := None;
      plantInserts := [];
      linkInserts := [];
      navigations := [];
    }

    /** `onUploadingChange` from the image widget. */
    method SetImageUploading(uploading: bool)
      modifies this`imageUploading
      ensures imageUploading == uploading
    {
      imageUploading := uploading;
    }

    /** The `onChange` of the category checkbox for `id`. */
    method ToggleCategory(id: string, checked: bool)
      modifies this`form
      ensures form == old(form).(categoryIds := ToggledCategories(old(form.categoryIds), id, checked))
    {
      if checked {
        form := form.(categoryIds := form.categoryIds + [id]);
      } else {
        form := form.(categoryIds := RemoveAll(form.categoryIds, id));
      }
    }

    /**
     * `handleCreate`. While an image is uploading nothing is validated or inserted;
     * an over-limit field stops the handler before the insert; otherwise exactly one
     * row is sent, then on success the category links are sent, the form is reset and
     * the page heads for the dashboard, and on failure the form is kept.
     */
    method HandleCreate(createdAt: string, today: string, insert: InsertOutcome)
      modifies this
      ensures old(imageUploading) ==>
        status == Some(WaitStatus) && form == old(form) && loading == old(loading)
        && plantInserts == old(plantInserts) && linkInserts == old(linkInserts) && navigations == old(navigations)
      ensures !old(imageUploading) && HasOverLimitFields(old(form)) ==>
        status == Some(ValidationStatus(ExpectedErrors(old(form)))) && form == old(form) && loading == old(loading)
        && plantInserts == old(plantInserts) && linkInserts == old(linkInserts) && navigations == old(navigations)
      ensures !old(imageUploading) && !HasOverLimitFields(old(form)) ==>
        plantInserts == old(plantInserts) + [BuildPayload(old(form), createdAt, today)] && !loading
      ensures !old(imageUploading) && !HasOverLimitFields(old(form)) && insert.Inserted? ==>
        status == Some(CreatedStatus) && form == EmptyForm(today)
        && linkInserts == old(linkInserts) + (if |old(form.categoryIds)| > 0 then [CategoryLinks(insert.plantId, old(form.categoryIds))] else [])
        && navigations == old(navigations) + ["/admin/dashboard"]
      ensures !old(imageUploading) && !HasOverLimitFields(old(form)) && insert.InsertFailed? ==>
        status == Some(FailureStatus(insert.error, old(form))) && form == old(form)
        && linkInserts == old(linkInserts) && navigations == old(navigations)
      ensures imageUploading == old(imageUploading)
    {
      if imageUploading {
        status := Some(WaitStatus);
        return;
      }
      var errors := ValidateLengths(form);
      ExpectedErrorsIffOverLimit(form);
      if |errors| > 0 {
        status := Some(ValidationStatus(errors));
        return;
      }
      Submit(createdAt, today, insert);
    }

    /**
     * The part of `handleCreate` after validation: the row is sent, then on success
     * the category links follow, the form is reset and the page heads for the
     * dashboard; on failure the error shows and the form is kept.
     */
    method Submit(createdAt: string, today: string, insert: InsertOutcome)
      modifies this
      ensures plantInserts == old(plantInserts) + [BuildPayload(old(form), createdAt, today)] && !loading
      ensures insert.Inserted? ==>
        status == Some(CreatedStatus) && form == EmptyForm(today)
        && linkInserts == old(linkInserts) + (if |old(form.categoryIds)| > 0 then [CategoryLinks(insert.plantId, old(form.categoryIds))] else [])
        && navigations == old(navigations) + ["/admin/dashboard"]
      ensures insert.InsertFailed? ==>
        status == Some(FailureStatus(insert.error, old(form))) && form == old(form)
        && linkInserts == old(linkInserts) && navigations == old(navigations)
      ensures imageUploading == old(imageUploading)
    {
      loading := true;
      status := Some(CreatingStatus);
      plantInserts := plantInserts + [BuildPayload(form, createdAt, today)];
      match insert {
        case InsertFailed(err) =>
          status := Some(FailureStatus(err, form));
        case Inserted(plantId) =>
          Created(plantId, today);
      }
      loading := false;
    }

    /** After a successful insert: category links, success message, form reset, dashboard. */
    method Created(plantId: string, today: string)
      modifies this
      ensures linkInserts == old(linkInserts)
        + (if |old(form.categoryIds)| > 0 then [CategoryLinks(plantId, old(form.categoryIds))] else [])
      ensures status == Some(CreatedStatus) && form == EmptyForm(today)
      ensures navigations == old(navigations) + ["/admin/dashboard"]
      ensures plantInserts == old(plantInserts) && loading == old(loading) && imageUploading == old(imageUploading)
    {
      if |form.categoryIds| > 0 {
        linkInserts := linkInserts + [CategoryLinks(plantId, form.categoryIds)];
      }
      status := Some(CreatedStatus);
      form := EmptyForm(today);
      navigations := navigations + ["/admin/dashboard"];
    }
  }
}
