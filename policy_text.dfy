/** The fixed Markdown fragments that the privacy-policy generator
    concatenates. Each fragment ends with a blank line, as the generator's
    triple-quoted literals do, and the four text fields and the date are
    interpolated where the generator's f-strings put them.

    Every fragment after the header is split into a short opening (a
    section heading, or the first words of a sentence) and the rest of its
    text; the two pieces concatenated are the generator's literal. The
    openings are what tells the sections apart when a document is read
    back. The fixed texts are looked up by section (or by the answer to
    whether personal information is collected), so that a proof about one
    text does not have to carry all the others. */
module PolicyText {

  /** The sections of a generated policy, in the order the generator emits them. */
  datatype Section = Header | InformationCollected | Cookies | Analytics | Sharing | Gdpr | Ccpa | Contact

  /** The sections that open with a "###" heading of their own; the
      headings of the first two are part of the header text. */
  predicate Headed(s: Section)
  {
    !s.Header? && !s.InformationCollected?
  }

  /** Title, "Last Updated" line, Introduction and the heading of
      "Information We Collect" (always emitted first). */
  function HeaderText(websiteName: string, date: string, companyName: string, websiteUrl: string): string
  {
    "# Privacy Policy for " + websiteName + "\n\n"
    + "## Last Updated: " + date + "\n\n"
    + "### Introduction\n\n"
    + "Welcome to " + websiteName + ". This Privacy Policy explains how " + companyName
    + " (\"we\", \"us\", or \"our\") collects, uses, and discloses your information when you use our website "
    + websiteUrl + " (the \"Service\").\n\n"
    + "We respect your privacy and are committed to protecting your personal data. "
    + "Please read this Privacy Policy carefully to understand how we handle your information.\n\n"
    + "### Information We Collect\n\n"
  }

  /** The first words under "Information We Collect": the list of personal
      information when it is collected, a disclaimer otherwise. */
  function InformationLead(collects: bool): string
  {
    if collects then "We may collect" else "We do not collect"
  }

  function InformationRest(collects: bool): string
  {
    if collects then
      " personal information that you provide directly to us, such as:\n"
      + "- Name\n"
      + "- Email address\n"
      + "- Phone number\n"
      + "- Billing and shipping address\n"
      + "- Payment information\n"
      + "- Any other information you choose to provide\n\n"
    else
      " personally identifiable information unless you voluntarily provide it to us.\n\n"
  }

  function Heading(s: Section): string
    requires Headed(s)
  {
    match s
    case Cookies => "### Cookies and Tracking Technologies\n\n"
    case Analytics => "### Analytics\n\n"
    case Sharing => "### Sharing Your Information\n\n"
    case Gdpr => "### GDPR Compliance\n\n"
    case Ccpa => "### CCPA Compliance\n\n"
    case Contact => "### Contact Us\n\n"
  }

  function ExerciseRightsLead(): string
  {
    "To exercise these rights, please contact us at "
  }

  /** The closing sentence of both regulation sections, naming the contact email. */
  function ExerciseRightsText(contactEmail: string): string
  {
    ExerciseRightsLead() + contactEmail + ".\n\n"
  }

  /** The rights listed by the two regulation sections. */
  function RightsList(s: Section): string
    requires s.Gdpr? || s.Ccpa?
  {
    match s
    case Gdpr =>
      "For users in the European Union (EU) and European Economic Area (EEA), we process your data in accordance "
      + "with the General Data Protection Regulation (GDPR). You have the following rights:\n"
      + "- Right to access your personal data\n"
      + "- Right to rectification if your data is inaccurate or incomplete\n"
      + "- Right to erasure (right to be forgotten)\n"
      + "- Right to restrict processing\n"
      + "- Right to data portability\n"
      + "- Right to object to processing\n"
      + "- Rights in relation to automated decision making and profiling\n\n"
    case Ccpa =>
      "For California residents, the California Consumer Privacy Act (CCPA) provides you with specific rights "
      + "regarding your personal information. You have the right to:\n"
      + "- Know what personal information is being collected about you\n"
      + "- Know whether your personal information is sold or disclosed and to whom\n"
      + "- Opt out of the sale of your personal information\n"
      + "- Access your personal information\n"
      + "- Request deletion of your personal information\n"
      + "- Not be discriminated against for exercising your CCPA rights\n\n"
  }

  /** The text under the headings of the three sections that interpolate
      nothing. */
  function Body(s: Section): string
    requires s.Cookies? || s.Analytics? || s.Sharing?
  {
    match s
    case Cookies =>
      "We use cookies and similar tracking technologies to track activity on our Service and hold certain information. "
      + "Cookies are files with a small amount of data which may include an anonymous unique identifier.\n\n"
      + "You can instruct your browser to refuse all cookies or to indicate when a cookie is being sent. "
      + "However, if you do not accept cookies, you may not be able to use some portions of our Service.\n\n"
    case Analytics =>
      "We may use third-party Service Providers to monitor and analyze the use of our Service, such as:\n"
      + "- Google Analytics\n"
      + "- Facebook Pixel\n"
      + "- Other analytics services\n\n"
    case Sharing =>
      "We may share your personal information with:\n"
      + "- Service providers who perform services on our behalf\n"
      + "- Business partners with whom we jointly offer products or services\n"
      + "- As required by law or to comply with legal process\n"
      + "- To protect and defend our rights and property\n\n"
  }

  /** The text under the GDPR and CCPA headings: the rights, then how to
      exercise them. */
  function RegulationBody(s: Section, contactEmail: string): string
    requires s.Gdpr? || s.Ccpa?
  {
    RightsList(s) + ExerciseRightsText(contactEmail)
  }

  /** The text under "Contact Us" (always emitted last). */
  function ContactBody(contactEmail: string, websiteUrl: string, companyName: string): string
  {
    "If you have any questions about this Privacy Policy, please contact us at:\n"
    + "- Email: " + contactEmail + "\n"
    + "- Website: " + websiteUrl + "\n"
    + "- Company: " + companyName + "\n\n"
  }
}
