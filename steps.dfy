/** The step catalogue: what one step of the guided tour names and where its
    tooltip prefers to sit, and the nine-step catalogue the application ships. */
module Steps {

  /** The preferred side of the tooltip relative to the highlighted region. */
  datatype Side = Top | Bottom | Left | Right | Center

  /** One step of the tour: the id of the region to highlight, the text shown
      in the tooltip card, and the preferred side of the card. */
  datatype TourStep = TourStep(targetId: string, title: string, content: string, position: Side)

  /** A catalogue the tour can run: it has at least one step, so that the
      first step always exists. */
  predicate Runnable(steps: seq<TourStep>)
  {
    |steps| > 0
  }

  /** The catalogue the application passes to the tour. */
  const TourSteps: seq<TourStep> := [
    TourStep("root", "Struttura Semantica HTML5",
      "Benvenuto nella guida interattiva. Analizzeremo i mattoni fondamentali che compongono una pagina web moderna, essenziali per l'accessibilità e la SEO.",
      Center),
    TourStep("header-block", "Header (Intestazione)",
      "L'elemento <header> apre la pagina o una sezione. È fondamentale per l'accessibilità perché permette agli screen reader di identificare rapidamente l'intestazione, che solitamente contiene logo, titolo e strumenti di ricerca.",
      Bottom),
    TourStep("nav-block", "Nav (Navigazione)",
      "Il tag <nav> è semanticamente riservato ai blocchi di navigazione *principali* (come il menu del sito). Non è necessario usarlo per ogni gruppo di link (come quelli nel footer).",
      Bottom),
    TourStep("main-block", "Main (Principale)",
      "L'elemento <main> è il cuore della pagina: contiene il contenuto unico e centrale. Non deve contenere elementi ripetuti in altre pagine (come sidebar o menu). Dovrebbe esserci un solo <main> visibile per pagina.",
      Right),
    TourStep("article-block", "Article (Articolo)",
      "<article> rappresenta una composizione indipendente che ha senso anche se estratta dal contesto (es. in un feed RSS). Ideale per post di blog, commenti, widget interattivi o notizie.",
      Top),
    TourStep("section-block", "Section (Sezione)",
      "<section> serve a raggruppare contenuti tematicamente correlati. A differenza di un generico <div>, una section dovrebbe idealmente avere un titolo (h2-h6) che ne descriva l'argomento.",
      Top),
    TourStep("box-model-trigger", "Box Model CSS",
      "Clicca qui per vedere come il browser calcola le dimensioni. Ogni elemento è una scatola composta da Margin (esterno), Border (cornice), Padding (spazio interno) e Content (contenuto reale).",
      Top),
    TourStep("aside-block", "Aside (Contenuto correlato)",
      "<aside> ospita contenuti tangenzialmente legati a quelli principali, ma non essenziali. È il tag perfetto per sidebar, box pubblicitari, glossari o biografie dell'autore.",
      Left),
    TourStep("footer-block", "Footer (Piè di pagina)",
      "<footer> chiude il documento o una sezione. Ospita tipicamente informazioni legali, copyright, link alla privacy policy, sitemap e contatti.",
      Top)
  ]

  /** The shipped catalogue can run the tour: it has nine steps, it opens on
      the page root with a centred card and ends on the footer. */
  lemma TourStepsRunnable()
    ensures Runnable(TourSteps) && |TourSteps| == 9
    ensures TourSteps[0].targetId == "root" && TourSteps[0].position == Center
    ensures TourSteps[|TourSteps| - 1].targetId == "footer-block"
  {
  }
}
