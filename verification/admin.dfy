/** The admin dashboard's edits of its working copy. Each edit builds a new
    document from the previous one (the source deep-copies and then assigns one
    property); the previous version is never changed. */
module Admin {
  import opened Wrappers
  import opened Seqs
  import opened Types
  import Text
  import Content

  // ---------------------------------------------------------------------------
  // Scalar fields (handleFieldChange)

  /** Set one scalar field of one section. */
  function ChangeField(c: SiteContent, f: Field, v: string): (r: SiteContent)
    ensures GetField(r, f) == v
    ensures forall g :: g != f ==> GetField(r, g) == GetField(c, g)
    ensures SameLists(r, c)
    ensures SectionOf(f) != Hero ==> r.hero == c.hero
    ensures SectionOf(f) != About ==> r.about == c.about
    ensures SectionOf(f) != Furniture ==> r.furniture == c.furniture
    ensures SectionOf(f) != Store ==> r.store == c.store
    ensures SectionOf(f) != Clients ==> r.clients == c.clients
    ensures SectionOf(f) != Contact ==> r.contact == c.contact
  {
    match f
    case HeroTitle => c.(hero := c.hero.(title := v))
    case HeroSubtitle => c.(hero := c.hero.(subtitle := v))
    case HeroBackgroundImage => c.(hero := c.hero.(backgroundImage := v))
    case AboutTitle => c.(about := c.about.(title := v))
    case AboutText => c.(about := c.about.(text := v))
    case AboutImageUrl => c.(about := c.about.(imageUrl := v))
    case FurnitureTitle => c.(furniture := c.furniture.(title := v))
    case StoreTitle => c.(store := c.store.(title := v))
    case StoreSubtitle => c.(store := c.store.(subtitle := v))
    case ClientsTitle => c.(clients := c.clients.(title := v))
    case ContactPhone => c.(contact := c.contact.(phone := v))
    case ContactEmail => c.(contact := c.contact.(email := v))
    case ContactAddress => c.(contact := c.contact.(address := v))
  }

  /** The field edit is the ONLY document with the new value in that field
      that agrees with the old one everywhere else. */
  lemma ChangeFieldIsUnique(c: SiteContent, f: Field, v: string, r: SiteContent)
    requires GetField(r, f) == v
    requires forall g :: g != f ==> GetField(r, g) == GetField(c, g)
    requires SameLists(r, c)
    ensures r == ChangeField(c, f, v)
  {
    DocumentExtensionality(r, ChangeField(c, f, v));
  }

  // ---------------------------------------------------------------------------
  // List items (handleListItemChange)

  /** The editable string fields of each item type (the numeric `id` is never
      edited). */
  datatype FurnitureField = FurnitureName | FurnitureImageUrl
  datatype ProductField = ProductName | ProductImageUrl | ProductPrice | ProductUrl
  datatype ClientField = ClientName | ClientLogoUrl | ClientDescription | ClientWebsiteUrl

  /** An item field together with the list it belongs to. */
  datatype ItemField =
    | OfFurniture(ff: FurnitureField)
    | OfProduct(pf: ProductField)
    | OfClient(cf: ClientField)

  function ListOf(f: ItemField): ListSection {
    match f
    case OfFurniture(_) => FurnitureList
    case OfProduct(_) => StoreList
    case OfClient(_) => ClientsList
  }

  function FurnitureValue(x: FurnitureItem, f: FurnitureField): string {
    match f
    case FurnitureName => x.name
    case FurnitureImageUrl => x.imageUrl
  }

  function ProductValue(x: StoreProduct, f: ProductField): string {
    match f
    case ProductName => x.name
    case ProductImageUrl => x.imageUrl
    case ProductPrice => x.price
    case ProductUrl => x.productUrl
  }

  /** A client field's value; the optional fields may be absent. */
  function ClientValue(x: Client, f: ClientField): Option<string> {
    match f
    case ClientName => Some(x.name)
    case ClientLogoUrl => Some(x.logoUrl)
    case ClientDescription => x.description
    case ClientWebsiteUrl => x.websiteUrl
  }

  function SetFurnitureValue(x: FurnitureItem, f: FurnitureField, v: string): (y: FurnitureItem)
    ensures y.id == x.id
    ensures FurnitureValue(y, f) == v
    ensures forall g :: g != f ==> FurnitureValue(y, g) == FurnitureValue(x, g)
  {
    match f
    case FurnitureName => x.(name := v)
    case FurnitureImageUrl => x.(imageUrl := v)
  }

  function SetProductValue(x: StoreProduct, f: ProductField, v: string): (y: StoreProduct)
    ensures y.id == x.id
    ensures ProductValue(y, f) == v
    ensures forall g :: g != f ==> ProductValue(y, g) == ProductValue(x, g)
  {
    match f
    case ProductName => x.(name := v)
    case ProductImageUrl => x.(imageUrl := v)
    case ProductPrice => x.(price := v)
    case ProductUrl => x.(productUrl := v)
  }

  /** Assigning a client's optional field makes it present. */
  function SetClientValue(x: Client, f: ClientField, v: string): (y: Client)
    ensures y.id == x.id
    ensures ClientValue(y, f) == Some(v)
    ensures forall g :: g != f ==> ClientValue(y, g) == ClientValue(x, g)
  {
    match f
    case ClientName => x.(name := v)
    case ClientLogoUrl => x.(logoUrl := v)
    case ClientDescription => x.(description := Some(v))
    case ClientWebsiteUrl => x.(websiteUrl := Some(v))
  }

  /** The number of items in one list section. */
  function ListLength(c: SiteContent, ls: ListSection): nat {
    match ls
    case FurnitureList => |c.furniture.items|
    case StoreList => |c.store.items|
    case ClientsList => |c.clients.items|
  }

  /** The ids of one list section, in list order. */
  function ListIds(c: SiteContent, ls: ListSection): seq<int> {
    match ls
    case FurnitureList => Keys(c.furniture.items, FurnitureId)
    case StoreList => Keys(c.store.items, ProductId)
    case ClientsList => Keys(c.clients.items, ClientId)
  }

  /** Set one field of the furniture item at position `i`. */
  function ChangeFurnitureItem(items: seq<FurnitureItem>, i: nat, f: FurnitureField, v: string)
    : (r: seq<FurnitureItem>)
    requires i < |items|
    ensures SameExceptAt(items, r, i)
    ensures r[i].id == items[i].id
    ensures FurnitureValue(r[i], f) == v
    ensures forall g :: g != f ==> FurnitureValue(r[i], g) == FurnitureValue(items[i], g)
  {
    items[i := SetFurnitureValue(items[i], f, v)]
  }

  /** Set one field of the store product at position `i`. */
  function ChangeProduct(items: seq<StoreProduct>, i: nat, f: ProductField, v: string)
    : (r: seq<StoreProduct>)
    requires i < |items|
    ensures SameExceptAt(items, r, i)
    ensures r[i].id == items[i].id
    ensures ProductValue(r[i], f) == v
    ensures forall g :: g != f ==> ProductValue(r[i], g) == ProductValue(items[i], g)
  {
    items[i := SetProductValue(items[i], f, v)]
  }

  /** Set one field of the client at position `i`. */
  function ChangeClient(items: seq<Client>, i: nat, f: ClientField, v: string)
    : (r: seq<Client>)
    requires i < |items|
    ensures SameExceptAt(items, r, i)
    ensures r[i].id == items[i].id
    ensures ClientValue(r[i], f) == Some(v)
    ensures forall g :: g != f ==> ClientValue(r[i], g) == ClientValue(items[i], g)
  {
    items[i := SetClientValue(items[i], f, v)]
  }

  /** Set one field of the item at position `i` of one list. The source
      indexes the list without a check, so `i` must be a position of the list
      (the dashboard only passes positions of the list it renders). Every
      scalar field, every other list and every id stays as it was. */
  function ChangeListItem(c: SiteContent, f: ItemField, i: nat, v: string): (r: SiteContent)
    requires i < ListLength(c, ListOf(f))
    ensures forall g :: GetField(r, g) == GetField(c, g)
    ensures forall ls :: ListLength(r, ls) == ListLength(c, ls)
    ensures forall ls :: ListIds(r, ls) == ListIds(c, ls)
    ensures r.hero == c.hero && r.about == c.about && r.contact == c.contact
    ensures ListOf(f) != FurnitureList ==> r.furniture == c.furniture
    ensures ListOf(f) != StoreList ==> r.store == c.store
    ensures ListOf(f) != ClientsList ==> r.clients == c.clients
    ensures f.OfFurniture? ==> r.furniture.items == ChangeFurnitureItem(c.furniture.items, i, f.ff, v)
    ensures f.OfProduct? ==> r.store.items == ChangeProduct(c.store.items, i, f.pf, v)
    ensures f.OfClient? ==> r.clients.items == ChangeClient(c.clients.items, i, f.cf, v)
  {
    match f
    case OfFurniture(ff) =>
      UpdateKeepsKeys(c.furniture.items, i, ChangeFurnitureItem(c.furniture.items, i, ff, v)[i], FurnitureId);
      c.(furniture := c.furniture.(items := ChangeFurnitureItem(c.furniture.items, i, ff, v)))
    case OfProduct(pf) =>
      UpdateKeepsKeys(c.store.items, i, ChangeProduct(c.store.items, i, pf, v)[i], ProductId);
      c.(store := c.store.(items := ChangeProduct(c.store.items, i, pf, v)))
    case OfClient(cf) =>
      UpdateKeepsKeys(c.clients.items, i, ChangeClient(c.clients.items, i, cf, v)[i], ClientId);
      c.(clients := c.clients.(items := ChangeClient(c.clients.items, i, cf, v)))
  }

  // ---------------------------------------------------------------------------
  // Adding and removing items (handleAddItem, handleRemoveItem)

  /** The name and image-URL prefix of a furniture category added from the
      dashboard; the URL ends with the clock reading in decimal. */
  const NewFurnitureName: string := "منتج جديد"
  const NewFurnitureImagePrefix: string := "https://source.unsplash.com/" + "800x800/?furniture&"

  /** The name and logo-URL prefix of a client added from the dashboard. */
  const NewClientName: string := "عميل جديد"
  const NewClientLogoPrefix: string := "https://picsum.photos/" + "200/100?grayscale&random="

  /** Append a new item to the furniture or clients list. The source reads the
      clock twice: once for the id (`freshId`) and once for the URL suffix
      (`stamp`). Any other section is left as it is; in particular no store
      product can be added. Added clients have no description and no website. */
  function AddItem(c: SiteContent, s: Section, freshId: int, stamp: nat): (r: SiteContent)
    ensures s != Furniture && s != Clients ==> r == c
    ensures forall g :: GetField(r, g) == GetField(c, g)
    ensures r.hero == c.hero && r.about == c.about && r.store == c.store && r.contact == c.contact
    ensures s != Furniture ==> r.furniture == c.furniture
    ensures s != Clients ==> r.clients == c.clients
    ensures s == Furniture ==>
              && |r.furniture.items| == |c.furniture.items| + 1
              && r.furniture.items[..|c.furniture.items|] == c.furniture.items
              && r.furniture.items[|c.furniture.items|]
                 == FurnitureItem(freshId, NewFurnitureName,
                                  NewFurnitureImagePrefix + Text.NatToString(stamp))
    ensures s == Clients ==>
              && |r.clients.items| == |c.clients.items| + 1
              && r.clients.items[..|c.clients.items|] == c.clients.items
              && r.clients.items[|c.clients.items|]
                 == Client(freshId, NewClientName,
                           NewClientLogoPrefix + Text.NatToString(stamp), None, None)
  {
    if s == Furniture then
      var x := FurnitureItem(freshId, NewFurnitureName,
                             NewFurnitureImagePrefix + Text.NatToString(stamp));
      c.(furniture := c.furniture.(items := c.furniture.items + [x]))
    else if s == Clients then
      var x := Client(freshId, NewClientName,
                      NewClientLogoPrefix + Text.NatToString(stamp), None, None);
      c.(clients := c.clients.(items := c.clients.items + [x]))
    else
      c
  }

  /** Drop every item of one list whose id is `id`, keeping the rest in order. */
  function RemoveItem(c: SiteContent, ls: ListSection, id: int): (r: SiteContent)
    ensures forall g :: GetField(r, g) == GetField(c, g)
    ensures r.hero == c.hero && r.about == c.about && r.contact == c.contact
    ensures ls != FurnitureList ==> r.furniture == c.furniture
    ensures ls != StoreList ==> r.store == c.store
    ensures ls != ClientsList ==> r.clients == c.clients
    ensures id !in ListIds(r, ls)
    ensures ListLength(r, ls) <= ListLength(c, ls)
    ensures ls == FurnitureList ==>
              && (forall i :: 0 <= i < |r.furniture.items| ==> r.furniture.items[i] in c.furniture.items)
              && (forall i :: 0 <= i < |c.furniture.items| && c.furniture.items[i].id != id ==>
                    c.furniture.items[i] in r.furniture.items)
    ensures ls == StoreList ==>
              && (forall i :: 0 <= i < |r.store.items| ==> r.store.items[i] in c.store.items)
              && (forall i :: 0 <= i < |c.store.items| && c.store.items[i].id != id ==>
                    c.store.items[i] in r.store.items)
    ensures ls == ClientsList ==>
              && (forall i :: 0 <= i < |r.clients.items| ==> r.clients.items[i] in c.clients.items)
              && (forall i :: 0 <= i < |c.clients.items| && c.clients.items[i].id != id ==>
                    c.clients.items[i] in r.clients.items)
  {
    match ls
    case FurnitureList =>
      c.(furniture := c.furniture.(items := RemoveKey(c.furniture.items, FurnitureId, id)))
    case StoreList =>
      c.(store := c.store.(items := RemoveKey(c.store.items, ProductId, id)))
    case ClientsList =>
      c.(clients := c.clients.(items := RemoveKey(c.clients.items, ClientId, id)))
  }

  /** Removing an id that no item of the list carries changes nothing. */
  lemma RemoveAbsentIdIsNoOp(c: SiteContent, ls: ListSection, id: int)
    requires id !in ListIds(c, ls)
    ensures RemoveItem(c, ls, id) == c
  {
    match ls
    case FurnitureList => RemoveAbsentKey(c.furniture.items, FurnitureId, id);
    case StoreList => RemoveAbsentKey(c.store.items, ProductId, id);
    case ClientsList => RemoveAbsentKey(c.clients.items, ClientId, id);
  }

  /** Removing the same id twice is removing it once. */
  lemma RemoveItemIdempotent(c: SiteContent, ls: ListSection, id: int)
    ensures RemoveItem(RemoveItem(c, ls, id), ls, id) == RemoveItem(c, ls, id)
  {
    match ls
    case FurnitureList => RemoveKeyIdempotent(c.furniture.items, FurnitureId, id);
    case StoreList => RemoveKeyIdempotent(c.store.items, ProductId, id);
    case ClientsList => RemoveKeyIdempotent(c.clients.items, ClientId, id);
  }

  /** Removal keeps the surviving items in their original order: removing from
      a list split in two is removing from each part and joining the results. */
  lemma RemoveItemKeepsOrder(c: SiteContent, ls: ListSection, id: int, k: nat)
    requires k <= ListLength(c, ls)
    ensures ls == FurnitureList ==>
              RemoveItem(c, ls, id).furniture.items
              == RemoveKey(c.furniture.items[..k], FurnitureId, id)
                 + RemoveKey(c.furniture.items[k..], FurnitureId, id)
    ensures ls == StoreList ==>
              RemoveItem(c, ls, id).store.items
              == RemoveKey(c.store.items[..k], ProductId, id)
                 + RemoveKey(c.store.items[k..], ProductId, id)
    ensures ls == ClientsList ==>
              RemoveItem(c, ls, id).clients.items
              == RemoveKey(c.clients.items[..k], ClientId, id)
                 + RemoveKey(c.clients.items[k..], ClientId, id)
  {
    match ls
    case FurnitureList =>
      var s := c.furniture.items;
      assert s == s[..k] + s[k..];
      FilterAppend(s[..k], s[k..], KeyDiffers(FurnitureId, id));
    case StoreList =>
      var s := c.store.items;
      assert s == s[..k] + s[k..];
      FilterAppend(s[..k], s[k..], KeyDiffers(ProductId, id));
    case ClientsList =>
      var s := c.clients.items;
      assert s == s[..k] + s[k..];
      FilterAppend(s[..k], s[k..], KeyDiffers(ClientId, id));
  }

  // ---------------------------------------------------------------------------
  // Id uniqueness

  /** Within every list, no two items share an id. */
  predicate WellKeyed(c: SiteContent) {
    && UniqueKeys(c.furniture.items, FurnitureId)
    && UniqueKeys(c.store.items, ProductId)
    && UniqueKeys(c.clients.items, ClientId)
  }

  /** The default document is well keyed. */
  lemma InitialWellKeyed()
    ensures WellKeyed(Content.InitialContent())
  {
    Content.InitialIdsIncreasing();
  }

  /** The list an added item goes to, if any. */
  function AddTarget(s: Section): Option<ListSection> {
    if s == Furniture then Some(FurnitureList)
    else if s == Clients then Some(ClientsList)
    else None
  }

  /** One dashboard edit. */
  datatype Edit =
    | SetFieldEdit(field: Field, value: string)
    | SetItemEdit(itemField: ItemField, index: nat, value: string)
    | AddEdit(section: Section, freshId: int, stamp: nat)
    | RemoveEdit(list: ListSection, id: int)

  /** The source can carry out the edit: an item index names an item. */
  predicate CanApply(c: SiteContent, e: Edit) {
    e.SetItemEdit? ==> e.index < ListLength(c, ListOf(e.itemField))
  }

  /** An added item's id is not yet used in the list it joins. */
  predicate FreshId(c: SiteContent, e: Edit) {
    e.AddEdit? && AddTarget(e.section).Some? ==> e.freshId !in ListIds(c, AddTarget(e.section).value)
  }

  function Apply(c: SiteContent, e: Edit): SiteContent
    requires CanApply(c, e)
  {
    match e
    case SetFieldEdit(f, v) => ChangeField(c, f, v)
    case SetItemEdit(f, i, v) => ChangeListItem(c, f, i, v)
    case AddEdit(s, id, stamp) => AddItem(c, s, id, stamp)
    case RemoveEdit(ls, id) => RemoveItem(c, ls, id)
  }

  /** Every edit of the run can be carried out where it occurs. */
  predicate Runnable(c: SiteContent, es: seq<Edit>)
    decreases |es|
  {
    |es| == 0 || (CanApply(c, es[0]) && Runnable(Apply(c, es[0]), es[1..]))
  }

  /** Every add of the run uses an id not yet present in its list. */
  predicate FreshRun(c: SiteContent, es: seq<Edit>)
    requires Runnable(c, es)
    decreases |es|
  {
    |es| == 0 || (FreshId(c, es[0]) && FreshRun(Apply(c, es[0]), es[1..]))
  }

  function ApplyAll(c: SiteContent, es: seq<Edit>): SiteContent
    requires Runnable(c, es)
    decreases |es|
  {
    if |es| == 0 then c else ApplyAll(Apply(c, es[0]), es[1..])
  }

  /** Editing an item field never touches ids, so uniqueness is kept. */
  lemma SetItemKeepsWellKeyed(c: SiteContent, f: ItemField, i: nat, v: string)
    requires WellKeyed(c) && i < ListLength(c, ListOf(f))
    ensures WellKeyed(ChangeListItem(c, f, i, v))
  {

  }

  /** Appending an item whose id is new to its list keeps ids unique. */
  lemma AddKeepsWellKeyed(c: SiteContent, s: Section, freshId: int, stamp: nat)
    requires WellKeyed(c)
    requires AddTarget(s).Some? ==> freshId !in ListIds(c, AddTarget(s).value)
    ensures WellKeyed(AddItem(c, s, freshId, stamp))
  {

  }

  /** Removing items keeps ids unique. */
  lemma RemoveKeepsWellKeyed(c: SiteContent, ls: ListSection, id: int)
    requires WellKeyed(c)
    ensures WellKeyed(RemoveItem(c, ls, id))
  {
    match ls
    case FurnitureList => RemoveKeyKeepsUnique(c.furniture.items, FurnitureId, id);
    case StoreList => RemoveKeyKeepsUnique(c.store.items, ProductId, id);
    case ClientsList => RemoveKeyKeepsUnique(c.clients.items, ClientId, id);
  }

  /** One edit keeps ids unique, provided an added id is fresh. */
  lemma ApplyKeepsWellKeyed(c: SiteContent, e: Edit)
    requires WellKeyed(c) && CanApply(c, e) && FreshId(c, e)
    ensures WellKeyed(Apply(c, e))
  {
    match e
    case SetFieldEdit(f, v) =>
    case SetItemEdit(f, i, v) => SetItemKeepsWellKeyed(c, f, i, v);
    case AddEdit(s, id, stamp) => AddKeepsWellKeyed(c, s, id, stamp);
    case RemoveEdit(ls, id) => RemoveKeepsWellKeyed(c, ls, id);
  }

  /** After any run of dashboard edits whose added ids are fresh, every list
      still has pairwise distinct ids. */
  lemma {:induction false} ApplyAllKeepsWellKeyed(c: SiteContent, es: seq<Edit>)
    requires WellKeyed(c) && Runnable(c, es) && FreshRun(c, es)
    ensures WellKeyed(ApplyAll(c, es))
    decreases |es|
  {
    if |es| > 0 {
      ApplyKeepsWellKeyed(c, es[0]);
      ApplyAllKeepsWellKeyed(Apply(c, es[0]), es[1..]);
    }
  }
}
