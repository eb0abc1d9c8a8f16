/** Where the feed's articles come from: a fixed set of twelve sample
    articles, dated relative to the moment the module was loaded, and a
    deterministic generator of further pages. */
module Articles {
  import opened NewsTypes
  import opened Decimal

  /** The categories of the twelve sample articles, in order. */
  const MockCategories: seq<Category> :=
    [Technology, Science, Business, Entertainment, Science, Sports,
     Health, Technology, General, Technology, Science, General]

  /** How many hours before module load each sample article was published. */
  const MockHours: seq<nat> := [2, 5, 8, 12, 24, 36, 48, 3, 6, 10, 14, 18]

  /** The fixed texts of a sample article. */
  datatype SampleText = SampleText(
    title: string, description: string, content: string, url: string,
    imageUrl: string, sourceName: string, sourceUrl: string, author: string)

  /** The texts of sample article number `k + 1`. */
  function SampleTexts(k: nat): SampleText
    requires k < 12
  {
    if k == 0 then SampleText("Inteligencia Artificial revoluciona la medicina moderna",
             "Nuevos avances en IA permiten diagnósticos más precisos y tratamientos personalizados para pacientes de todo el mundo.",
             "La inteligencia artificial está transformando el campo de la medicina...",
             "https://example.com/ai-medicine",
             "https://images.unsplash.com/photo-1576091160399-112ba8d25d1d?w=800&q=80",
             "TechNews", "https://technews.com", "María García")
    else if k == 1 then SampleText("Descubrimiento arqueológico cambia la historia antigua",
             "Un equipo internacional de arqueólogos ha descubierto ruinas que podrían reescribir lo que sabemos sobre las civilizaciones antiguas.",
             "El descubrimiento fue realizado en el desierto de Egipto...",
             "https://example.com/archaeology",
             "https://images.unsplash.com/photo-1599940824399-b87987ce0799?w=800&q=80",
             "Historia Hoy", "https://historiahoy.com", "Carlos Ruiz")
    else if k == 2 then SampleText("Mercados financieros alcanzan máximos históricos",
             "Los principales índices bursátiles han cerrado en niveles récord impulsados por datos económicos positivos.",
             "Wall Street celebró hoy con números verdes...",
             "https://example.com/markets",
             "https://images.unsplash.com/photo-1611974765270-ca1258634369?w=800&q=80",
             "Finanzas Global", "https://finanzas.com", "Ana Martínez")
    else if k == 3 then SampleText("Nueva película de Marvel rompe récords de taquilla",
             "La última entrega del universo cinematográfico ha recaudado más de 500 millones en su primer fin de semana.",
             "Los fans acudieron masivamente a los cines...",
             "https://example.com/marvel",
             "https://images.unsplash.com/photo-1536440136628-849c177e76a1?w=800&q=80",
             "CineTotal", "https://cinetotal.com", "Pedro López")
    else if k == 4 then SampleText("Descubren nueva especie de ballena en el Pacífico",
             "Científicos marinos han identificado una especie previamente desconocida de cetáceo en aguas profundas.",
             "La expedición duró más de 6 meses...",
             "https://example.com/whale",
             "https://images.unsplash.com/photo-1568430462989-44163eb1752f?w=800&q=80",
             "National Geographic", "https://natgeo.com", "Laura Sánchez")
    else if k == 5 then SampleText("Real Madrid gana la Champions League",
             "El equipo merengue se coronó campeón de Europa por decimoquinta vez en su historia.",
             "Un gol en el minuto 90 decidió el partido...",
             "https://example.com/champions",
             "https://images.unsplash.com/photo-1577223625816-7546f13df25d?w=800&q=80",
             "ESPN", "https://espn.com", "Juan Pérez")
    else if k == 6 then SampleText("Nuevo tratamiento contra el cáncer muestra resultados prometedores",
             "Ensayos clínicos de fase III demuestran una tasa de remisión del 85% en pacientes con cáncer de pulmón.",
             "El tratamiento utiliza terapia génica...",
             "https://example.com/cancer",
             "https://images.unsplash.com/photo-1579684385127-1ef15d508118?w=800&q=80",
             "Medical News", "https://medicalnews.com", "Dra. Elena Vargas")
    else if k == 7 then SampleText("Apple presenta nuevos productos en evento especial",
             "La compañía de Cupertino reveló su última línea de dispositivos con innovadoras características de IA.",
             "El evento se llevó a cabo en el Apple Park...",
             "https://example.com/apple",
             "https://images.unsplash.com/photo-1491933382434-500287f9b54b?w=800&q=80",
             "AppleInsider", "https://appleinsider.com", "Miguel Torres")
    else if k == 8 then SampleText("Cumbre mundial sobre cambio climático alcanza acuerdo histórico",
             "195 países acuerdan reducir emisiones de carbono en un 50% para 2030.",
             "La cumbre duró dos semanas de negociaciones intensas...",
             "https://example.com/climate",
             "https://images.unsplash.com/photo-1569163139599-0f4517e36f51?w=800&q=80",
             "BBC Mundo", "https://bbc.com", "Sofia Hernández")
    else if k == 9 then SampleText("Tesla anuncia baterías de nueva generación",
             "Las nuevas baterías prometen el doble de autonomía y tiempos de carga reducidos a la mitad.",
             "Elon Musk presentó la tecnología en conferencia de prensa...",
             "https://example.com/tesla",
             "https://images.unsplash.com/photo-1560958089-b8a1929cea89?w=800&q=80",
             "Electrek", "https://electrek.com", "Roberto Díaz")
    else if k == 10 then SampleText("Misión espacial llega exitosamente a Marte",
             "La sonda exploradora ha comenzado su misión de 2 años para buscar signos de vida pasada.",
             "El aterrizaje fue transmitido en vivo a millones...",
             "https://example.com/mars",
             "https://images.unsplash.com/photo-1614728853913-1e221a657a63?w=800&q=80",
             "NASA News", "https://nasa.gov", "Dr. James Wilson")
    else SampleText("Gobierno anuncia reforma fiscal integral",
             "Las nuevas medidas buscan reducir la evasión y aumentar la recaudación sin afectar a la clase media.",
             "La reforma será discutida en el congreso...",
             "https://example.com/tax",
             "https://images.unsplash.com/photo-1554224155-6726b3ff858f?w=800&q=80",
             "El País", "https://elpais.com", "Carmen Vega")
  }

  /** Sample article number `k + 1`, dated relative to `loadedAt`; its id is
      that number written in decimal ("1" to "12"). */
  function MockArticle(k: nat, loadedAt: int): (a: Article)
    requires k < 12
    ensures a.category == MockCategories[k]
    ensures a.publishedAt == loadedAt - MockHours[k] * MsPerHour
    ensures a.id == NatToString(k + 1)
  {
    var t := SampleTexts(k);
    Article(NatToString(k + 1), t.title, t.description, t.content, t.url, t.imageUrl,
            loadedAt - MockHours[k] * MsPerHour, Source(t.sourceName, t.sourceUrl),
            MockCategories[k], Some(t.author))
  }

  /** The twelve sample articles, in their fixed order. */
  function MockArticles(loadedAt: int): (r: seq<Article>)
    ensures |r| == 12
    ensures forall k :: 0 <= k < 12 ==> r[k] == MockArticle(k, loadedAt)
  {
    seq(12, k requires 0 <= k < 12 => MockArticle(k, loadedAt))
  }

  /** The sample articles carry pairwise distinct ids. */
  lemma MockIdsDistinct(loadedAt: int)
    ensures IdsDistinct(MockArticles(loadedAt))
  {
    var r := MockArticles(loadedAt);
    forall i, j | 0 <= i < j < |r| ensures r[i].id != r[j].id {
      if r[i].id == r[j].id {
        NatToStringInjective(i + 1, j + 1);
      }
    }
  }

  /** The generator's source names, cycled through by position. */
  const SourceNames: seq<string> :=
    ["BBC Mundo", "CNN Español", "El País", "Reuters", "Bloomberg", "TechCrunch", "The Verge"]

  /** The running position of item `i` of page `page` when every page holds
      `pageSize` items. */
  function RunningIndex(page: nat, pageSize: nat, i: nat): nat
    requires page >= 1
  {
    (page - 1) * pageSize + i
  }

  /** Item `i` of generated page `page`, made at time `now`. */
  function GeneratedArticle(page: nat, pageSize: nat, i: nat, now: int): (a: Article)
    requires page >= 1
    ensures a.id == "generated-" + NatToString(page) + "-" + NatToString(i)
    ensures a.category == AllCategories[RunningIndex(page, pageSize, i) % 7]
    ensures a.publishedAt <= now - 12 * MsPerHour
  {
    var index := RunningIndex(page, pageSize, i);
    var category := AllCategories[index % |AllCategories|];
    var name := CategoryName(category);
    var hoursAgo := index * 2 + 12;
    Article(
      "generated-" + NatToString(page) + "-" + NatToString(i),
      "Noticia " + NatToString(index + 1) + ": Avances importantes en " + name,
      "Resumen de los últimos acontecimientos en el sector de " + name
        + ". Esta noticia cubre los eventos más relevantes del día.",
      "Contenido completo de la noticia...",
      "https://example.com/news/" + NatToString(index),
      "https://picsum.photos/800/450?random=" + NatToString(index),
      now - hoursAgo * MsPerHour,
      Source(SourceNames[index % |SourceNames|], "https://example.com"),
      category,
      Some("Autor " + NatToString(index + 1)))
  }

  /** A generated page: `pageSize` articles, item `i` being the
      `GeneratedArticle` at position `i`. */
  function GenerateMoreArticles(page: nat, pageSize: nat, now: int): (r: seq<Article>)
    requires page >= 1
    ensures |r| == pageSize
    ensures forall i {:trigger GeneratedArticle(page, pageSize, i, now)} :: 0 <= i < pageSize ==> r[i] == GeneratedArticle(page, pageSize, i, now)
  {
    seq(pageSize, i requires 0 <= i < pageSize => GeneratedArticle(page, pageSize, i, now))
  }

  /** Generated articles are told apart by their ids: the id determines the
      page and the position. */
  lemma GeneratedIdsDetermineItem(p: nat, n: nat, i: nat, q: nat, m: nat, j: nat, now: int, later: int)
    requires p >= 1 && q >= 1
    requires GeneratedArticle(p, n, i, now).id == GeneratedArticle(q, m, j, later).id
    ensures p == q && i == j
  {
    var x, y := NatToString(p), NatToString(i);
    var u, v := NatToString(q), NatToString(j);
    GeneratedIdShape(x, y);
    GeneratedIdShape(u, v);
    DashSplitUnique(x, y, u, v);
    NatToStringInjective(p, q);
    NatToStringInjective(i, j);
  }

  /** A generated id is the fixed prefix followed by `x + "-" + y`. */
  lemma GeneratedIdShape(x: string, y: string)
    ensures ("generated-" + x + "-" + y)[10..] == x + "-" + y
  {
    assert "generated-" + x + "-" + y == "generated-" + (x + "-" + y);
  }

  /** No two articles of a generated page share an id. */
  lemma GeneratedPageIdsDistinct(page: nat, pageSize: nat, now: int)
    requires page >= 1
    ensures IdsDistinct(GenerateMoreArticles(page, pageSize, now))
  {
    var r := GenerateMoreArticles(page, pageSize, now);
    forall i, j | 0 <= i < j < |r| ensures r[i].id != r[j].id {
      if r[i].id == r[j].id {
        GeneratedIdsDetermineItem(page, pageSize, i, page, pageSize, j, now, now);
      }
    }
  }

  /** Consecutive generated articles walk through the categories in their
      fixed order, continuing across page boundaries. */
  lemma GeneratedCategoriesCycle(page: nat, pageSize: nat, i: nat, now: int)
    requires page >= 1 && i + 1 < pageSize
    ensures var r := GenerateMoreArticles(page, pageSize, now);
      r[i + 1].category == AllCategories[(RunningIndex(page, pageSize, i) + 1) % 7]
  {
    var a := GeneratedArticle(page, pageSize, i + 1, now);
    assert GenerateMoreArticles(page, pageSize, now)[i + 1] == a;
    assert RunningIndex(page, pageSize, i + 1) == RunningIndex(page, pageSize, i) + 1;
  }

  /** The sample articles of one category, in their fixed order. */
  function OfCategory(s: seq<Article>, c: Category): (r: seq<Article>)
    ensures |r| <= |s|
    ensures forall a {:trigger a in r} :: a in r <==> a in s && a.category == c
  {
    if s == [] then []
    else (if s[0].category == c then [s[0]] else []) + OfCategory(s[1..], c)
  }

  /** The category filter keeps the surviving articles in their order and
      with their multiplicities: it distributes over concatenation, and a
      single article stays exactly when it has the category. */
  lemma {:induction false} OfCategoryConcat(a: seq<Article>, b: seq<Article>, x: Article, c: Category)
    ensures OfCategory(a + b, c) == OfCategory(a, c) + OfCategory(b, c)
    ensures OfCategory([x], c) == if x.category == c then [x] else []
  {
    if a == [] {
      assert a + b == b;
    } else {
      var h := if a[0].category == c then [a[0]] else [];
      assert (a + b)[0] == a[0] && (a + b)[1..] == a[1..] + b;
      OfCategoryConcat(a[1..], b, x, c);
      calc {
        OfCategory(a + b, c);
        h + OfCategory(a[1..] + b, c);
        h + (OfCategory(a[1..], c) + OfCategory(b, c));
        (h + OfCategory(a[1..], c)) + OfCategory(b, c);
        OfCategory(a, c) + OfCategory(b, c);
      }
    }
    assert [x][1..] == [];
  }

  /** The shorter of `s` and its first `n` elements (`slice(0, n)`). */
  function Take<T>(s: seq<T>, n: nat): (r: seq<T>)
    ensures |r| == if n < |s| then n else |s|
    ensures r == s[..|r|]
    ensures forall x :: x in r ==> x in s
  {
    if n < |s| then s[..n] else s
  }
}
