/**
  The professional profile record (src/lib/profile.ts) and `getContactLinks`, which turns the
  stored contact details into link targets: the e-mail behind `mailto:`, the phone behind
  `tel:` with every white-space character removed, the two profile URLs as stored.
 */
module Profile {
  import opened Seqs
  import opened Text
  import opened Data

  datatype ContactInfo = ContactInfo(phone: string, email: string, linkedin: string, github: string)

  datatype KeyStat = KeyStat(labelText: BilingualText, value: string)

  datatype Certification = Certification(name: string, issuer: string, year: int, url: Option<string>)

  datatype ProfessionalProfile = ProfessionalProfile(
    name: string,
    location: BilingualText,
    title: BilingualText,
    summary: BilingualText,
    keyStats: seq<KeyStat>,
    contact: ContactInfo,
    certifications: Option<seq<Certification>>)

  datatype ContactLinks = ContactLinks(linkedin: string, github: string, email: string, phone: string)

  const ShippedContact: ContactInfo := ContactInfo(
    phone := "+55 21 98964-8889",
    email := "carlossouza.pr@gmail.com",
    linkedin := "https://www.linkedin.com/in/carlos-souza-5874315b/",
    github := "https://github.com/Carlossouzaadv")

  const ShippedProfile: ProfessionalProfile := ProfessionalProfile(
    name := "Carlos Souza",
    location := BilingualText(
      "Rio de Janeiro, RJ",
      "Rio de Janeiro, Brazil"),
    title := BilingualText(
      "Especialista em Produto e Arquiteto de Soluções de IA",
      "AI Product Specialist and SaaS Solutions Architect"),
    summary := BilingualText(
      "Especialista em Produto e Arquiteto de Soluções de IA (LegalTech/TaxTech) com um diferencial estratégico único: 14+ anos de experiência prévia como Advogado Sênior (Tributário & Societário). Expertise comprovada em liderar projetos de alta complexidade (M&A, Governança com ganhos de 10% de EBITDA) e profundo conhecimento técnico em arquitetar produtos SaaS complexos (Python, Node.js, RAG, Jurimetria). Recentemente certificado em IA (Google, AWS) e Gestão Ágil (Atlassian Jira), uno a visão de negócio (advocacia) com a metodologia de execução (Agile) para liderar equipes de engenharia na entrega de soluções de alto valor.",
      "AI Product Specialist and SaaS Solutions Architect (LegalTech/FinTech) with a unique strategic advantage: 14+ years of prior experience as a Senior Corporate & Tax Lawyer. Proven expertise in leading high-impact projects (M&A, Governance delivering 10% EBITDA gains) and deep technical knowledge in architecting complex SaaS products (Python, Node.js, RAG, Jurimetrics). Newly certified in AI (Google, AWS) and Agile Management (Atlassian Jira), I bridge the business vision (legal expertise) with execution methodology (Agile) to lead engineering teams in delivering high-value solutions."),
    keyStats := [
      KeyStat(BilingualText("Anos de Experiência", "Years of Experience"), "14+"),
      KeyStat(BilingualText("Projetos SaaS", "SaaS Projects"), "4"),
      KeyStat(BilingualText("Certificações Técnicas", "Technical Certifications"), "5+")
    ],
    contact := ShippedContact,
    certifications := Some([
      Certification("Google Cloud Computing Foundations: Networking & Security", "Google Cloud", 2023, None),
      Certification("AWS Certified Solutions Architect", "Amazon Web Services", 2023, None),
      Certification("Atlassian Jira Fundamentals", "Atlassian", 2023, None)
    ]))

  /**
    `getContactLinks`, over the contact record it reads. The e-mail and phone links are the
    stored values behind their scheme prefixes, so both can be read back; the phone link
    carries no white space at all, and every other character of the stored phone survives.
   */
  function GetContactLinks(c: ContactInfo): (r: ContactLinks)
    ensures r.linkedin == c.linkedin && r.github == c.github
    ensures |r.email| == 7 + |c.email| && r.email[..7] == "mailto:" && r.email[7..] == c.email
    ensures |r.phone| >= 4 && r.phone[..4] == "tel:" && r.phone[4..] == RemoveWhitespace(c.phone)
  {
    ContactLinks(c.linkedin, c.github, "mailto:" + c.email, "tel:" + RemoveWhitespace(c.phone))
  }

  /**
    The phone link carries no white space at all, and the characters behind `tel:` are exactly
    the non-white-space characters of the stored phone.
   */
  lemma PhoneLinkClean(c: ContactInfo)
    ensures NoWhitespace(GetContactLinks(c).phone)
    ensures forall ch :: ch in GetContactLinks(c).phone[4..] <==> ch in c.phone && !IsWhitespace(ch)
  {
    var stripped := RemoveWhitespace(c.phone);
    RemoveWhitespaceKeeps(c.phone);
    var phone := GetContactLinks(c).phone;
    assert phone == "tel:" + stripped;
    forall i | 0 <= i < |phone| ensures !IsWhitespace(phone[i]) {
      if i >= 4 { assert phone[i] == stripped[i - 4]; }
    }
  }

  /** Phones that differ only in white space yield the same link. */
  lemma PhoneLinkIgnoresSpacing(c: ContactInfo, a: string, w: string, b: string)
    requires AllWhitespace(w)
    ensures GetContactLinks(c.(phone := a + w + b)).phone == GetContactLinks(c.(phone := a + b)).phone
  {
    RemoveWhitespaceSkips(a, w, b);
  }

  /** The shipped phone starts with the Brazilian country code `+55`. */
  lemma ShippedPhoneIsBrazilian()
    ensures ShippedContact.phone[..3] == "+55"
  {
  }

  /** A phone written as three groups separated by single spaces loses exactly the spaces. */
  lemma StripGroupedPhone(a: string, b: string, c: string)
    requires NoWhitespace(a) && NoWhitespace(b) && NoWhitespace(c)
    ensures RemoveWhitespace(a + " " + b + " " + c) == a + b + c
  {
    assert a + " " + b + " " + c == a + " " + (b + " " + c);
    RemoveWhitespaceSkips(a, " ", b + " " + c);
    assert a + (b + " " + c) == (a + b) + " " + c;
    RemoveWhitespaceSkips(a + b, " ", c);
    assert NoWhitespace(a + b + c);
    RemoveWhitespaceKeepsClean(a + b + c);
  }

  /** The shipped phone, written as country code, area code and number, loses only its two spaces. */
  lemma ShippedPhoneStripped()
    ensures RemoveWhitespace(ShippedContact.phone) == "+552198964-8889"
  {
    StripShippedGroups(ShippedContact.phone, "+55", "21", "98964-8889");
  }

  // The literal arrives as a parameter pinned by `requires`, so the solver does not unfold the link functions over the constant.
  lemma StripShippedGroups(phone: string, country: string, area: string, number: string)
    requires country == "+55" && area == "21" && number == "98964-8889"
    requires phone == "+55 21 98964-8889"
    ensures RemoveWhitespace(phone) == "+552198964-8889"
  {
    assert phone == country + " " + area + " " + number;
    StripGroupedPhone(country, area, number);
  }

  /** The links built from the shipped contact record. */
  lemma ShippedContactLinks()
    ensures GetContactLinks(ShippedContact) == ContactLinks(
      "https://www.linkedin.com/in/carlos-souza-5874315b/",
      "https://github.com/Carlossouzaadv",
      "mailto:carlossouza.pr@gmail.com",
      "tel:+552198964-8889")
  {
    LinksOfContact(ShippedContact);
  }

  /** The shipped phone link reads `tel:+55` followed by a digit, and has no white space. */
  lemma ShippedPhoneLinkShape()
    ensures GetContactLinks(ShippedContact).phone[..7] == "tel:+55"
    ensures '0' <= GetContactLinks(ShippedContact).phone[7] <= '9'
    ensures NoWhitespace(GetContactLinks(ShippedContact).phone)
  {
    ShippedContactLinks();
    PhoneLinkClean(ShippedContact);
    TelLinkShape(GetContactLinks(ShippedContact).phone);
  }

  // The literal arrives as a parameter pinned by `requires`, so the solver does not unfold the link functions over the constant.
  lemma TelLinkShape(link: string)
    requires link == "tel:+552198964-8889"
    ensures |link| > 7 && link[..7] == "tel:+55" && '0' <= link[7] <= '9'
  {
  }

  // The literal arrives as a parameter pinned by `requires`, so the solver does not unfold the link functions over the constant.
  lemma LinksOfContact(c: ContactInfo)
    requires c.phone == "+55 21 98964-8889" && c.email == "carlossouza.pr@gmail.com"
    ensures GetContactLinks(c) == ContactLinks(c.linkedin, c.github,
      "mailto:carlossouza.pr@gmail.com", "tel:+552198964-8889")
  {
    ShippedEmailLink(c);
    ShippedPhoneLink(c);
  }

  // The literal arrives as a parameter pinned by `requires`, so the solver does not unfold the link functions over the constant.
  lemma ShippedEmailLink(c: ContactInfo)
    requires c.email == "carlossouza.pr@gmail.com"
    ensures GetContactLinks(c).email == "mailto:carlossouza.pr@gmail.com"
  {
  }

  // The literal arrives as a parameter pinned by `requires`, so the solver does not unfold the link functions over the constant.
  lemma ShippedPhoneLink(c: ContactInfo)
    requires c.phone == "+55 21 98964-8889"
    ensures GetContactLinks(c).phone == "tel:+552198964-8889"
  {
    StripShippedGroups(c.phone, "+55", "21", "98964-8889");
  }
}
