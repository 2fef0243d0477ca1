/** The built-in default document (`initialContent`), seeded on first run and
    used whenever the stored copy is missing or unreadable.

    Long string literals are written as concatenations of short pieces, cut
    after spaces and URL separators: the text is the same, and short literals
    keep the verifier's work small. */
module Content {
  import opened Wrappers
  import opened Types
  import opened Seqs

  /** Every string of a client, including its optional ones, is non-empty. */
  predicate ClientPopulated(x: Client) {
    && x.name != "" && x.logoUrl != ""
    && x.description.Some? && x.description.value != ""
    && x.websiteUrl.Some? && x.websiteUrl.value != ""
  }

  /** Every string field of the document and of every item is non-empty. */
  predicate FullyPopulated(c: SiteContent) {
    && (forall f :: GetField(c, f) != "")
    && (forall i :: 0 <= i < |c.furniture.items| ==>
          c.furniture.items[i].name != "" && c.furniture.items[i].imageUrl != "")
    && (forall i :: 0 <= i < |c.store.items| ==>
          && c.store.items[i].name != "" && c.store.items[i].imageUrl != ""
          && c.store.items[i].price != "" && c.store.items[i].productUrl != "")
    && (forall i :: 0 <= i < |c.clients.items| ==> ClientPopulated(c.clients.items[i]))
  }

  /** The default furniture categories: ids 1..4 in list order. */
  function DefaultFurniture(): (s: seq<FurnitureItem>)
    ensures |s| == 4
    ensures forall i :: 0 <= i < |s| ==> s[i].id == i + 1
    ensures forall i :: 0 <= i < |s| ==> s[i].name != "" && s[i].imageUrl != ""
  {
    [
      FurnitureItem(1,
        "أثاث منزلي",
        "https://" + "images." + "unsplash." + "com/photo-" + "1555041469-" +
        "a586c61ea9bc?" + "q=80&w=800&" + "auto=format&" +
        "fit=crop"),
      FurnitureItem(2,
        "أثاث مكتبي",
        "https://" + "images." + "unsplash." + "com/photo-" + "1522071820081-" +
        "009f0129c71c?" + "q=80&w=800&" + "auto=format&" +
        "fit=crop"),
      FurnitureItem(3,
        "تصميم مخصص",
        "https://" + "images." + "unsplash." + "com/photo-" + "1572377323861-" +
        "c46372d892a0?" + "q=80&w=800&" + "auto=format&" +
        "fit=crop"),
      FurnitureItem(4,
        "مشاريع " + "فندقية",
        "https://" + "images." + "unsplash." + "com/photo-" + "1566073771259-" +
        "6a8506099945?" + "q=80&w=800&" + "auto=format&" +
        "fit=crop")
    ]
  }

  /** The default store products: ids 1..12 in list order. */
  function DefaultStore(): (s: seq<StoreProduct>)
    ensures |s| == 12
    ensures forall i :: 0 <= i < |s| ==> s[i].id == i + 1
    ensures forall i :: 0 <= i < |s| ==>
              && s[i].name != "" && s[i].imageUrl != ""
              && s[i].price != "" && s[i].productUrl != ""
  {
    [
      StoreProduct(1,
        "كرسي " + "استرخاء " + "'هدوء'",
        "https://" + "images." + "unsplash." + "com/photo-" + "1567538096630-" +
        "e0c55bd6374c?" + "q=80&w=800&" + "auto=format&" +
        "fit=crop",
        "1,850 ر.س",
        "https://" + "example.com/" + "store/" + "product1"),
      StoreProduct(2,
        "طاولة قهوة " + "'تلاقي' " + "الرخامية",
        "https://" + "images." + "unsplash." + "com/photo-" + "1613203425412-" +
        "894ac0c0836e?" + "q=80&w=800&" + "auto=format&" +
        "fit=crop",
        "2,300 ر.س",
        "https://" + "example.com/" + "store/" + "product2"),
      StoreProduct(3,
        "مصباح أرضي " + "'شعاع' " + "المعدني",
        "https://" + "images." + "unsplash." + "com/photo-" + "1594213280092-" +
        "6072385a7b6a?" + "q=80&w=800&" + "auto=format&" +
        "fit=crop",
        "950 ر.س",
        "https://" + "example.com/" + "store/" + "product3"),
      StoreProduct(4,
        "أريكة " + "'واحة' من " + "الكتان " + "الفاخر",
        "https://" + "images." + "unsplash." + "com/photo-" + "1558211583-" +
        "d26f610c1a01?" + "q=80&w=800&" + "auto=format&" +
        "fit=crop",
        "6,200 ر.س",
        "https://" + "example.com/" + "store/" + "product4"),
      StoreProduct(5,
        "مكتب " + "'إلهام' من " + "خشب الجوز",
        "https://" + "images." + "unsplash." + "com/photo-" + "1449247709967-" +
        "d4461a6a6103?" + "q=80&w=800&" + "auto=format&" +
        "fit=crop",
        "3,100 ر.س",
        "https://" + "example.com/" + "store/" + "product5"),
      StoreProduct(6,
        "خزانة كتب " + "'أرفف " + "الحكمة'",
        "https://" + "images." + "unsplash." + "com/photo-" + "1594224457494-" +
        "0125557884bf?" + "q=80&w=800&" + "auto=format&" +
        "fit=crop",
        "2,750 ر.س",
        "https://" + "example.com/" + "store/" + "product6"),
      StoreProduct(7,
        "سرير " + "'أحلام' " + "المنجد",
        "https://" + "images." + "unsplash." + "com/photo-" + "1505693416388-" +
        "ac5ce068fe85?" + "q=80&w=800&" + "auto=format&" +
        "fit=crop",
        "5,400 ر.س",
        "https://" + "example.com/" + "store/" + "product7"),
      StoreProduct(8,
        "طاولة طعام " + "'ملتقى " + "العائلة'",
        "https://" + "images." + "unsplash." + "com/photo-" + "1551215717-" +
        "8bc7995a9742?" + "q=80&w=800&" + "auto=format&" +
        "fit=crop",
        "7,800 ر.س",
        "https://" + "example.com/" + "store/" + "product8"),
      StoreProduct(9,
        "سجادة " + "'الكثبان' " + "الصوفية",
        "https://" + "images." + "unsplash." + "com/photo-" + "1617462205522-" +
        "8257d383b334?" + "q=80&w=800&" + "auto=format&" +
        "fit=crop",
        "1,500 ر.س",
        "https://" + "example.com/" + "store/" + "product9"),
      StoreProduct(10,
        "مرآة " + "'أصداء' " + "بإطار نحاسي",
        "https://" + "images." + "unsplash." + "com/photo-" + "1616627561859-" +
        "48b434316135?" + "q=80&w=800&" + "auto=format&" +
        "fit=crop",
        "650 ر.س",
        "https://" + "example.com/" + "store/" + "product10"),
      StoreProduct(11,
        "وحدة تلفاز " + "'سينما' " + "العصرية",
        "https://" + "images." + "unsplash." + "com/photo-" + "1593359677879-" +
        "a4bb92f829d1?" + "q=80&w=800&" + "auto=format&" +
        "fit=crop",
        "2,950 ر.س",
        "https://" + "example.com/" + "store/" + "product11"),
      StoreProduct(12,
        "مقعد 'همسة' " + "بجانب السرير",
        "https://" + "images." + "unsplash." + "com/photo-" + "1543464264-" +
        "8c0e4a74212a?" + "q=80&w=800&" + "auto=format&" +
        "fit=crop",
        "1,100 ر.س",
        "https://" + "example.com/" + "store/" + "product12")
    ]
  }

  /** The default clients: ids 1..6 in list order, each with a description
      and a website. */
  function DefaultClients(): (s: seq<Client>)
    ensures |s| == 6
    ensures forall i :: 0 <= i < |s| ==> s[i].id == i + 1
    ensures forall i :: 0 <= i < |s| ==> ClientPopulated(s[i])
  {
    [
      Client(1,
        "NEOM",
        "https://" + "picsum." + "photos/200/" + "200?" + "grayscale&" +
        "random=21",
        Some("مشروع مدينة " + "المستقبل " + "الطموح في " + "المملكة " +
             "العربية " + "السعودية، " + "تشرفنا " + "بتوريد أثاث " +
             "لمكاتبهم " + "الإدارية " + "ومرافق " + "الضيافة."),
        Some("https://www." + "neom.com/")),
      Client(2,
        "Red Sea " + "Global",
        "https://" + "picsum." + "photos/200/" + "200?" + "grayscale&" +
        "random=22",
        Some("أحد أكثر " + "المشاريع " + "السياحية " + "المتجددة " +
             "طموحًا في " + "العالم، " + "ساهمنا في " + "تأثيث الفلل " +
             "الفاخرة " + "والمناطق " + "المشتركة."),
        Some("https://www." + "redseaglobal." + "com/")),
      Client(3,
        "Aramco",
        "https://" + "picsum." + "photos/200/" + "200?" + "grayscale&" +
        "random=23",
        Some("شركة الطاقة " + "والكيميائيات " + "الرائدة " + "عالميًا، " +
             "قمنا بتنفيذ " + "مشاريع " + "تأثيث مكتبي " + "مخصصة تلبي " +
             "أعلى معايير " + "الجودة."),
        Some("https://www." + "aramco.com/")),
      Client(4,
        "Roshn",
        "https://" + "picsum." + "photos/200/" + "200?" + "grayscale&" +
        "random=24",
        Some("مطور عقاري " + "وطني يهدف " + "لرفع جودة " + "الحياة، " +
             "ونفخر " + "بكوننا أحد " + "الموردين " + "المعتمدين " +
             "للأثاث في " + "مشاريعهم " + "السكنية."),
        Some("https://www." + "roshn.sa/")),
      Client(5,
        "Diriyah Gate",
        "https://" + "picsum." + "photos/200/" + "200?" + "grayscale&" +
        "random=25",
        Some("مشروع تطوير " + "بوابة " + "الدرعية " + "التاريخية، " +
             "شاركنا في " + "تصميم " + "وتصنيع قطع " + "أثاث تراثية " +
             "بلمسة عصرية " + "للمناطق " + "الثقافية."),
        Some("https://www." + "diriyah.sa/")),
      Client(6,
        "مجموعة " + "الكفاح " + "القابضة",
        "https://" + "picsum." + "photos/200/" + "200?" + "grayscale&" +
        "random=26",
        Some("نفخر " + "بشراكتنا مع " + "مجموعة " + "الكفاح، " + "إحدى أبرز " +
             "المجموعات " + "الاستثمارية " + "في المملكة، " + "حيث قمنا " +
             "بتأثيث " + "مقرهم " + "الرئيسي " + "الجديد " + "بتصاميم " +
             "مكتبية " + "عصرية تعكس " + "هويتهم " + "الرائدة."),
        Some("https://www." + "kifah.com/"))
    ]
  }

  /** The default document: every item list numbered 1, 2, 3, ... in list order. */
  function InitialContent(): (c: SiteContent)
    ensures |c.furniture.items| == 4 && |c.store.items| == 12 && |c.clients.items| == 6
    ensures forall i :: 0 <= i < |c.furniture.items| ==> c.furniture.items[i].id == i + 1
    ensures forall i :: 0 <= i < |c.store.items| ==> c.store.items[i].id == i + 1
    ensures forall i :: 0 <= i < |c.clients.items| ==> c.clients.items[i].id == i + 1
  {
    SiteContent(
      HeroSection(
        "منسج للأثاث",
        "نصنع من " + "الخشب " + "حكايات، ومن " + "الأثاث " + "بيوتاً تنبض " +
        "بالحياة",
        "https://" + "images." + "unsplash." + "com/photo-" + "1618220179428-" +
        "22790b461013?" + "q=80&w=1920&" + "auto=format&" +
        "fit=crop"),
      AboutSection(
        "فن الصناعة، " + "برؤية عصرية",
        "في منسج، " + "نؤمن بأن " + "الأثاث هو " + "روح المكان. " +
        "منذ تأسيسنا " + "في قلب " + "المملكة " + "العربية " + "السعودية، " +
        "ونحن " + "ملتزمون " + "بتقديم " + "تصاميم " + "فريدة تجمع " +
        "بين الأصالة " + "والعصرية، " + "مستخدمين " + "أجود أنواع " +
        "الأخشاب " + "والمواد " + "لنصنع قطعاً " + "فنية تدوم " +
        "لأجيال.",
        "https://" + "images." + "unsplash." + "com/photo-" + "1616046229478-" +
        "9901c5536a45?" + "q=80&w=800&" + "auto=format&" +
        "fit=crop"),
      FurnitureSection("إبداعاتنا", DefaultFurniture()),
      StoreSection(
        "من متجرنا",
        "منتجات " + "مختارة " + "بعناية " + "يمكنك " + "شراؤها الآن",
        DefaultStore()),
      ClientsSection("شركاء النجاح", DefaultClients()),
      ContactSection(
        "" + "+966567930000",
        "info@mansaj." + "sa",
        "الأحساء، " + "المملكة " + "العربية " + "السعودية"))
  }

  /** In every default list the ids strictly increase in list order, so they
      are pairwise distinct. */
  lemma InitialIdsIncreasing()
    ensures IncreasingKeys(InitialContent().furniture.items, FurnitureId)
    ensures IncreasingKeys(InitialContent().store.items, ProductId)
    ensures IncreasingKeys(InitialContent().clients.items, ClientId)
    ensures UniqueKeys(InitialContent().furniture.items, FurnitureId)
    ensures UniqueKeys(InitialContent().store.items, ProductId)
    ensures UniqueKeys(InitialContent().clients.items, ClientId)
  {
  }

  /** The default document has no empty string anywhere: all six sections
      are present and every field of every item is filled in. */
  lemma InitialFullyPopulated()
    ensures FullyPopulated(InitialContent())
  {
  }
}
