/**
  `analyzeStore` and `generateMessage`: the name-based persona, the clauses the
  site signals add, and the message template.
 */
module Analysis {
  import opened Wrappers
  import opened JsText

  /**
    The site data `fetchWebsiteData` supplies. The date and floating-point
    parts are given already decided: `blogStale` is "more than 6 months since
    the last post", `slow` is `loadingSpeed > 2.5` and `speedText` is
    `loadingSpeed.toFixed(2)`.
   */
  datatype SiteSignal = SiteSignal(
    hasInstagram: bool,
    instagramFollowers: int,
    hasBlog: bool,
    blogStale: bool,
    slow: bool,
    speedText: string,
    isMobileFriendly: bool,
    hasContactForm: bool,
    productCount: int,
    whatsapp: Option<string>,
    blogUrl: Option<string>)

  datatype Analysis = Analysis(contato: string, conquista: string, oportunidade: string)

  const NoInstagramText: string := " | Perfil do Instagram não encontrado"
  const NotMobileText: string := " | Site não otimizado para mobile"
  const StaleBlogText: string := " | Blog abandonado há mais de 6 meses"
  const NoBlogText: string := " | Sem blog para gerar autoridade"
  const ActiveBlogText: string := " | Blog ativo com conteúdo relevante"

  function FewFollowersText(followers: int): string {
    " | Baixo número de seguidores (" + IntToDecimal(followers) + ")"
  }

  function SlowSiteText(speedText: string): string {
    " | Site lento (" + speedText + "s)"
  }

  /**
    The name-based seed: `vest` first, then `praia` or `beach`, then the
    generic team seed. The contact is Mariana exactly for a name containing
    `vest`, Carolina exactly for a name containing `praia` or `beach` but not
    `vest`, and the store's team for any other name.
   */
  function Seed(storeName: string): (seed: Analysis)
    ensures seed.contato == "Mariana" <==> NamesVest(storeName)
    ensures seed.contato == "Carolina" <==> !NamesVest(storeName) && NamesBeach(storeName)
    ensures !NamesVest(storeName) && !NamesBeach(storeName) ==> seed.contato == "Time da " + storeName
  {
    if NamesVest(storeName) then MarianaSeed
    else if NamesBeach(storeName) then CarolinaSeed
    else
      var generic := Analysis("Time da " + storeName, TeamAchievement, TeamOpportunity);
      assert generic.contato[0] == 'T';
      generic
  }

  /** The seeds of the two named contacts. */
  const MarianaSeed := Analysis(
    "Mariana",
    "Coleção nova com storytelling emocional e ótimo feedback de clientes",
    "Reels com menos de 500 visualizações — potencial não explorado")

  const CarolinaSeed := Analysis(
    "Carolina",
    "Fotos em cenários tropicais com alto engajamento visual",
    "Ausência de TikTok e poucas respostas a DMs")

  /** The fixed texts of the generic team seed. */
  const TeamAchievement := "Lançamento recente com bom engajamento nos comentários"
  const TeamOpportunity := "Baixo uso de Reels e ausência de link otimizado na bio"

  /** Whether the lower-cased store name selects the first or the second named seed. */
  predicate NamesVest(storeName: string) {
    Contains(Lower(storeName), "vest")
  }

  predicate NamesBeach(storeName: string) {
    Contains(Lower(storeName), "praia") || Contains(Lower(storeName), "beach")
  }

  /**
    `analyzeStore(storeName, websiteData)`, with None for a null
    `websiteData`: without site data the seed is returned unchanged, and with
    it the contact is still the seed's.
   */
  function AnalyzeStore(storeName: string, data: Option<SiteSignal>): (a: Analysis)
    ensures data.None? ==> a == Seed(storeName)
    ensures a.contato == Seed(storeName).contato
  {
    if data.None? then Seed(storeName) else Augment(Seed(storeName), data.value)
  }

  /**
    The clauses the site data adds to a seed, in the order the source tests
    them. The contact is kept, and the achievement is the seed's with the
    active-blog praise added only for a blog that is not stale.
   */
  function Augment(seed: Analysis, d: SiteSignal): (a: Analysis)
    ensures a.contato == seed.contato
    ensures a.conquista == if d.hasBlog && !d.blogStale then seed.conquista + ActiveBlogText else seed.conquista
  {
    var op := AfterMobile(AfterSpeed(AfterInstagram(seed.oportunidade, d), d), d);
    if d.hasBlog then
      if d.blogStale then Analysis(seed.contato, seed.conquista, op + StaleBlogText)
      else Analysis(seed.contato, seed.conquista + ActiveBlogText, op)
    else Analysis(seed.contato, seed.conquista, op + NoBlogText)
  }

  /** The Instagram test: no profile, or a profile with fewer than 1000 followers. */
  function AfterInstagram(op: string, d: SiteSignal): string {
    if !d.hasInstagram then op + NoInstagramText
    else if d.instagramFollowers < 1000 then op + FewFollowersText(d.instagramFollowers)
    else op
  }

  /** The loading-speed test. */
  function AfterSpeed(op: string, d: SiteSignal): string {
    if d.slow then op + SlowSiteText(d.speedText) else op
  }

  /** The mobile-friendliness test. */
  function AfterMobile(op: string, d: SiteSignal): string {
    if !d.isMobileFriendly then op + NotMobileText else op
  }

  /** The observations a site signal can add to the opportunity. */
  datatype Clause = NoInstagram | FewFollowers(count: int) | SlowSite(speed: string) | NotMobile | StaleBlog | NoBlog

  function ClauseText(c: Clause): string {
    match c
    case NoInstagram => NoInstagramText
    case FewFollowers(n) => FewFollowersText(n)
    case SlowSite(t) => SlowSiteText(t)
    case NotMobile => NotMobileText
    case StaleBlog => StaleBlogText
    case NoBlog => NoBlogText
  }

  /** The clause's place in the fixed order. */
  function Rank(c: Clause): nat {
    match c
    case NoInstagram => 0
    case FewFollowers(_) => 1
    case SlowSite(_) => 2
    case NotMobile => 3
    case StaleBlog => 4
    case NoBlog => 5
  }

  /** Reference definition: which observations hold for a signal, one entry per condition met. */
  function Observations(d: SiteSignal): seq<Clause> {
    InstagramObservations(d) + SpeedObservations(d) + MobileObservations(d) + BlogObservations(d)
  }

  function InstagramObservations(d: SiteSignal): seq<Clause> {
    (if !d.hasInstagram then [NoInstagram] else [])
    + (if d.hasInstagram && d.instagramFollowers < 1000 then [FewFollowers(d.instagramFollowers)] else [])
  }

  function SpeedObservations(d: SiteSignal): seq<Clause> {
    if d.slow then [SlowSite(d.speedText)] else []
  }

  function MobileObservations(d: SiteSignal): seq<Clause> {
    if !d.isMobileFriendly then [NotMobile] else []
  }

  function BlogObservations(d: SiteSignal): seq<Clause> {
    (if d.hasBlog && d.blogStale then [StaleBlog] else [])
    + (if !d.hasBlog then [NoBlog] else [])
  }

  /** The text of a list of clauses, each starting with ` | `. */
  function Render(cs: seq<Clause>): string {
    if cs == [] then [] else ClauseText(cs[0]) + Render(cs[1..])
  }

  lemma {:induction false} RenderAppend(a: seq<Clause>, b: seq<Clause>)
    ensures Render(a + b) == Render(a) + Render(b)
  {
    if a == [] {
      assert a + b == b;
    } else {
      assert (a + b)[0] == a[0];
      assert (a + b)[1..] == a[1..] + b;
      RenderAppend(a[1..], b);
    }
  }

  lemma RenderSingle(c: Clause)
    ensures Render([c]) == ClauseText(c)
  {
    assert [c][1..] == [];
  }

  lemma {:induction false} PartsMatchObservations(op: string, d: SiteSignal)
    ensures AfterInstagram(op, d) == op + Render(InstagramObservations(d))
    ensures AfterSpeed(op, d) == op + Render(SpeedObservations(d))
    ensures AfterMobile(op, d) == op + Render(MobileObservations(d))
  {
    if !d.hasInstagram {
      RenderSingle(NoInstagram);
      assert InstagramObservations(d) == [NoInstagram];
    } else if d.instagramFollowers < 1000 {
      RenderSingle(FewFollowers(d.instagramFollowers));
      assert InstagramObservations(d) == [FewFollowers(d.instagramFollowers)];
    } else {
      assert InstagramObservations(d) == [];
    }
    if d.slow { RenderSingle(SlowSite(d.speedText)); }
    if !d.isMobileFriendly { RenderSingle(NotMobile); }
  }

  lemma {:induction false} RenderOfParts(a: seq<Clause>, b: seq<Clause>, c: seq<Clause>, d: seq<Clause>)
    ensures Render(a + b + c + d) == Render(a) + Render(b) + Render(c) + Render(d)
  {
    RenderAppend(a, b);
    RenderAppend(a + b, c);
    RenderAppend(a + b + c, d);
  }

  /** The blog test: the last clause of the opportunity, or the active-blog praise in the achievement. */
  lemma {:induction false} BlogMatchesObservations(seed: Analysis, d: SiteSignal)
    ensures var op := AfterMobile(AfterSpeed(AfterInstagram(seed.oportunidade, d), d), d);
      Augment(seed, d).oportunidade == op + Render(BlogObservations(d))
  {
    if d.hasBlog && d.blogStale {
      RenderSingle(StaleBlog);
      assert BlogObservations(d) == [StaleBlog];
    } else if !d.hasBlog {
      RenderSingle(NoBlog);
      assert BlogObservations(d) == [NoBlog];
    } else {
      assert BlogObservations(d) == [];
    }
  }

  lemma Assemble(s0: string, r0: string, r1: string, r2: string, r3: string,
                  op1: string, op2: string, op3: string, result: string, total: string)
    requires op1 == s0 + r0 && op2 == op1 + r1 && op3 == op2 + r2 && result == op3 + r3
    requires total == r0 + r1 + r2 + r3
    ensures result == s0 + total
  {
  }

  /** With site data, the opportunity is the seed's followed by the rendered observations. */
  lemma {:induction false} AugmentMatchesObservations(seed: Analysis, d: SiteSignal)
    ensures Augment(seed, d).oportunidade == seed.oportunidade + Render(Observations(d))
  {
    var op1 := AfterInstagram(seed.oportunidade, d);
    var op2 := AfterSpeed(op1, d);
    PartsMatchObservations(seed.oportunidade, d);
    PartsMatchObservations(op1, d);
    PartsMatchObservations(op2, d);
    BlogMatchesObservations(seed, d);
    RenderOfParts(InstagramObservations(d), SpeedObservations(d), MobileObservations(d), BlogObservations(d));
    Assemble(seed.oportunidade, Render(InstagramObservations(d)), Render(SpeedObservations(d)),
      Render(MobileObservations(d)), Render(BlogObservations(d)),
      op1, op2, AfterMobile(op2, d), Augment(seed, d).oportunidade, Render(Observations(d)));
  }

  /** The opportunity always begins with the seed's opportunity, and the achievement changes only for an active blog. */
  lemma AnalyzeStoreExtendsSeed(storeName: string, data: Option<SiteSignal>)
    ensures StartsWith(AnalyzeStore(storeName, data).oportunidade, Seed(storeName).oportunidade)
    ensures AnalyzeStore(storeName, data).conquista != Seed(storeName).conquista
        <==> data.Some? && data.value.hasBlog && !data.value.blogStale
  {
    var seed := Seed(storeName);
    if data.Some? {
      AugmentMatchesObservations(seed, data.value);
      var r := Render(Observations(data.value));
      assert (seed.oportunidade + r)[..|seed.oportunidade|] == seed.oportunidade;
      assert |ActiveBlogText| > 0;
    }
  }

  /** Observations come in the fixed order, none twice. */
  lemma ObservationsInOrder(d: SiteSignal)
    ensures forall i, j :: 0 <= i < j < |Observations(d)| ==> Rank(Observations(d)[i]) < Rank(Observations(d)[j])
  {
  }

  /** "No Instagram" and "few followers" never both apply. */
  lemma InstagramClausesExclusive(d: SiteSignal)
    ensures !(NoInstagram in Observations(d) && exists n :: FewFollowers(n) in Observations(d))
  {
  }

  /** Exactly one blog outcome applies: abandoned blog, no blog, or an active blog praised in the achievement. */
  lemma OneBlogOutcome(seed: Analysis, d: SiteSignal)
    ensures var stale := StaleBlog in Observations(d);
      var none := NoBlog in Observations(d);
      var active := Augment(seed, d).conquista != seed.conquista;
      (stale && !none && !active) || (!stale && none && !active) || (!stale && !none && active)
  {
    assert |ActiveBlogText| > 0;
    var front := InstagramObservations(d) + SpeedObservations(d) + MobileObservations(d);
    assert StaleBlog !in front && NoBlog !in front;
    assert Observations(d) == front + BlogObservations(d);
  }

  /** The fixed signature line that closes every message. */
  const Signature := "Especialista em Tráfego & SEO para Moda"

  /** The fixed text of the message template between its filled-in values, in order. */
  const Greeting := "Oi, "
  const Praise := "\nAdorei o que vocês estão fazendo com "
  const Especially := " — especialmente "
  const Noticed := ". Isso gera conexão genuína.\n\nPercebi, porém, que "
  const Offer := ". É comum — mas é oportunidade escondida para aumentar conversões.\n\n"
    + "Na DataFashion Marketing, ajudamos marcas como a sua a aumentar vendas online e ROI de anúncios.\n\n"
    + "Gostaria de agendar uma breve conversa para mostrar como podemos ajudar a destravar seu potencial.\n\n"
    + "Atenciosamente,"

  /** The length of the template's fixed text. */
  const TemplateLength: nat := 433

  /**
    `generateMessage(storeName, analysis)`, `this.userName` passed as
    `userName`: the template literal filled in. The message holds nothing but
    the template's fixed text and the five filled-in values.
   */
  function GenerateMessage(userName: string, storeName: string, a: Analysis): (m: string)
    ensures |m| == |a.contato| + |storeName| + |a.conquista| + |a.oportunidade| + |userName| + TemplateLength
  {
    Greeting + a.contato + ",\n" + Praise + storeName + Especially + a.conquista + Noticed + a.oportunidade
      + Offer + "\n" + userName + "\n" + Signature
  }

  /** A text made of fourteen pieces opens with its first three, holds the next six together, and closes with its last four. */
  lemma FourteenPieces(p0: string, p1: string, p2: string, p3: string, p4: string, p5: string, p6: string,
                       p7: string, p8: string, p9: string, p10: string, p11: string, p12: string, p13: string)
    ensures var m := p0 + p1 + p2 + p3 + p4 + p5 + p6 + p7 + p8 + p9 + p10 + p11 + p12 + p13;
      && StartsWith(m, p0 + p1 + p2)
      && OccursAt(m, p3 + p4 + p5 + p6 + p7 + p8, |p0 + p1 + p2|)
      && EndsWith(m, p10 + p11 + p12 + p13)
  {
    var m := p0 + p1 + p2 + p3 + p4 + p5 + p6 + p7 + p8 + p9 + p10 + p11 + p12 + p13;
    var head := p0 + p1 + p2;
    var cited := p3 + p4 + p5 + p6 + p7 + p8;
    var tail := p10 + p11 + p12 + p13;
    assert m == head + cited + p9 + tail;
    assert m[|head|..|head| + |cited|] == cited;
  }

  /**
    The message opens with the greeting naming the contact; right after it,
    the praise names the store and the achievement and the next sentence the
    opportunity; it closes with the user's name alone on the line before the
    fixed signature line.
   */
  lemma MessageShape(userName: string, storeName: string, a: Analysis)
    ensures var m := GenerateMessage(userName, storeName, a);
      && StartsWith(m, Greeting + a.contato + ",\n")
      && OccursAt(m, Praise + storeName + Especially + a.conquista + Noticed + a.oportunidade, |Greeting + a.contato + ",\n"|)
      && Contains(m, Praise + storeName + Especially + a.conquista + Noticed + a.oportunidade)
      && EndsWith(m, "\n" + userName + "\n" + Signature)
  {
    FourteenPieces(Greeting, a.contato, ",\n", Praise, storeName, Especially, a.conquista, Noticed, a.oportunidade,
                   Offer, "\n", userName, "\n", Signature);
  }
}
