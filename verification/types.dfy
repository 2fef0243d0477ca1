/** The content document: six sections, always all present. Three of them
    (furniture, store, clients) hold ordered lists of items keyed by a numeric
    `id`; the other three are flat records of strings. */
module Types {
  import opened Wrappers

  datatype FurnitureItem = FurnitureItem(id: int, name: string, imageUrl: string)

  /** `description` and `websiteUrl` are declared required, but clients added
      from the admin page are created without them, so they are optional here. */
  datatype Client = Client(
    id: int, name: string, logoUrl: string,
    description: Option<string>, websiteUrl: Option<string>)

  datatype StoreProduct = StoreProduct(
    id: int, name: string, imageUrl: string, price: string, productUrl: string)

  datatype HeroSection = HeroSection(title: string, subtitle: string, backgroundImage: string)
  datatype AboutSection = AboutSection(title: string, text: string, imageUrl: string)
  datatype FurnitureSection = FurnitureSection(title: string, items: seq<FurnitureItem>)
  datatype StoreSection = StoreSection(title: string, subtitle: string, items: seq<StoreProduct>)
  datatype ClientsSection = ClientsSection(title: string, items: seq<Client>)
  datatype ContactSection = ContactSection(phone: string, email: string, address: string)

  datatype SiteContent = SiteContent(
    hero: HeroSection,
    about: AboutSection,
    furniture: FurnitureSection,
    store: StoreSection,
    clients: ClientsSection,
    contact: ContactSection)

  /** The identity key of each item type. */
  function FurnitureId(x: FurnitureItem): int { x.id }
  function ProductId(x: StoreProduct): int { x.id }
  function ClientId(x: Client): int { x.id }

  /** The section names of the document (`keyof SiteContent`). */
  datatype Section = Hero | About | Furniture | Store | Clients | Contact

  /** The sections that hold an item list. */
  datatype ListSection = FurnitureList | StoreList | ClientsList

  /** The scalar string fields of the document, each named with its section. */
  datatype Field =
    | HeroTitle | HeroSubtitle | HeroBackgroundImage
    | AboutTitle | AboutText | AboutImageUrl
    | FurnitureTitle
    | StoreTitle | StoreSubtitle
    | ClientsTitle
    | ContactPhone | ContactEmail | ContactAddress

  /** The section a scalar field belongs to. */
  function SectionOf(f: Field): Section {
    match f
    case HeroTitle | HeroSubtitle | HeroBackgroundImage => Hero
    case AboutTitle | AboutText | AboutImageUrl => About
    case FurnitureTitle => Furniture
    case StoreTitle | StoreSubtitle => Store
    case ClientsTitle => Clients
    case ContactPhone | ContactEmail | ContactAddress => Contact
  }

  /** Reads one scalar field of the document. */
  function GetField(c: SiteContent, f: Field): string {
    match f
    case HeroTitle => c.hero.title
    case HeroSubtitle => c.hero.subtitle
    case HeroBackgroundImage => c.hero.backgroundImage
    case AboutTitle => c.about.title
    case AboutText => c.about.text
    case AboutImageUrl => c.about.imageUrl
    case FurnitureTitle => c.furniture.title
    case StoreTitle => c.store.title
    case StoreSubtitle => c.store.subtitle
    case ClientsTitle => c.clients.title
    case ContactPhone => c.contact.phone
    case ContactEmail => c.contact.email
    case ContactAddress => c.contact.address
  }

  /** Two documents agree on every item list. */
  predicate SameLists(a: SiteContent, b: SiteContent) {
    && a.furniture.items == b.furniture.items
    && a.store.items == b.store.items
    && a.clients.items == b.clients.items
  }

  /** A document is determined by its scalar fields and its item lists: the
      `Field` enumeration and the three lists cover the whole record. */
  lemma DocumentExtensionality(a: SiteContent, b: SiteContent)
    requires forall f :: GetField(a, f) == GetField(b, f)
    requires SameLists(a, b)
    ensures a == b
  {
    assert GetField(a, HeroTitle) == GetField(b, HeroTitle);
    assert GetField(a, HeroSubtitle) == GetField(b, HeroSubtitle);
    assert GetField(a, HeroBackgroundImage) == GetField(b, HeroBackgroundImage);
    assert GetField(a, AboutTitle) == GetField(b, AboutTitle);
    assert GetField(a, AboutText) == GetField(b, AboutText);
    assert GetField(a, AboutImageUrl) == GetField(b, AboutImageUrl);
    assert GetField(a, FurnitureTitle) == GetField(b, FurnitureTitle);
    assert GetField(a, StoreTitle) == GetField(b, StoreTitle);
    assert GetField(a, StoreSubtitle) == GetField(b, StoreSubtitle);
    assert GetField(a, ClientsTitle) == GetField(b, ClientsTitle);
    assert GetField(a, ContactPhone) == GetField(b, ContactPhone);
    assert GetField(a, ContactEmail) == GetField(b, ContactEmail);
    assert GetField(a, ContactAddress) == GetField(b, ContactAddress);
  }
}
