/** The privacy-policy generator: which sections a policy contains, in
    which order, the text it produces, and a decoder that reads the six
    options back out of a generated document.

    The layout and decoding lemmas are proved over an arbitrary table of
    section texts (Fragments) and then applied to the generator's own table
    (FragmentsFor), whose texts live in module PolicyText. */
module PolicyGenerator {
  import opened Wrappers
  import opened PolicyText

  /** The four text fields interpolated into the policy. */
  datatype SiteInfo = SiteInfo(websiteName: string, websiteUrl: string, companyName: string, contactEmail: string)

  /** The six checkbox options of the policy form. */
  datatype PolicyOptions = PolicyOptions(
    gdprCompliant: bool,
    ccpaCompliant: bool,
    collectsPersonalInfo: bool,
    collectsCookies: bool,
    sharesData: bool,
    usesAnalytics: bool)

  /** A fragment of text: a short opening and the rest. */
  datatype Block = Block(opening: string, rest: string)
  {
    function Text(): string
    {
      opening + rest
    }
  }

  /** The section texts, with the text fields and the date already filled in. */
  datatype Fragments = Fragments(
    header: string,
    personalInfo: Block,
    noPersonalInfo: Block,
    cookies: Block,
    analytics: Block,
    sharing: Block,
    gdpr: Block,
    ccpa: Block,
    contact: Block)

  /** The generator's own texts for a site and a "Last Updated" date. */
  function FragmentsFor(info: SiteInfo, date: string): Fragments
  {
    var e, u, c := info.contactEmail, info.websiteUrl, info.companyName;
    Fragments(
      HeaderText(info.websiteName, date, c, u),
      Block(InformationLead(true), InformationRest(true)),
      Block(InformationLead(false), InformationRest(false)),
      Block(Heading(Cookies), Body(Cookies)),
      Block(Heading(Analytics), Body(Analytics)),
      Block(Heading(Sharing), Body(Sharing)),
      Block(Heading(Gdpr), RegulationBody(Gdpr, e)),
      Block(Heading(Ccpa), RegulationBody(Ccpa, e)),
      Block(Heading(Contact), ContactBody(e, u, c)))
  }


  // ---------------------------------------------------------------------
  // Section selection and order

  /** Position of a section in the fixed document order. */
  function Rank(s: Section): nat
  {
    match s
    case Header => 0
    case InformationCollected => 1
    case Cookies => 2
    case Analytics => 3
    case Sharing => 4
    case Gdpr => 5
    case Ccpa => 6
    case Contact => 7
  }

  /** The section at a position of the fixed document order. */
  function SectionAt(k: nat): (s: Section)
    requires k < 8
    ensures Rank(s) == k
  {
    if k == 0 then Header
    else if k == 1 then InformationCollected
    else if k == 2 then Cookies
    else if k == 3 then Analytics
    else if k == 4 then Sharing
    else if k == 5 then Gdpr
    else if k == 6 then Ccpa
    else Contact
  }

  /** Whether the options call for a section. */
  predicate Included(s: Section, o: PolicyOptions)
  {
    match s
    case Header => true
    case InformationCollected => true
    case Cookies => o.collectsCookies
    case Analytics => o.usesAnalytics
    case Sharing => o.sharesData
    case Gdpr => o.gdprCompliant
    case Ccpa => o.ccpaCompliant
    case Contact => true
  }

  /** Sections listed in strictly increasing document order. */
  predicate StrictlyRanked(r: seq<Section>)
  {
    forall i, j :: 0 <= i < j < |r| ==> Rank(r[i]) < Rank(r[j])
  }

  /** `x` when `present`, nothing otherwise. */
  function Opt<T>(present: bool, x: seq<T>): seq<T>
  {
    if present then x else []
  }

  /** The included sections before position k of the fixed order, in order. */
  function Selected(o: PolicyOptions, k: nat): seq<Section>
    requires k <= 8
  {
    if k == 0 then [] else Selected(o, k - 1) + Opt(Included(SectionAt(k - 1), o), [SectionAt(k - 1)])
  }

  /** The sections a policy with options o contains, in document order. */
  function Sections(o: PolicyOptions): seq<Section>
  {
    Selected(o, 8)
  }

  /** Before position k, the listed sections are in document order and are
      exactly the included ones. */
  lemma {:induction false} SelectedOrdered(o: PolicyOptions, k: nat)
    requires k <= 8
    ensures StrictlyRanked(Selected(o, k))
    ensures forall s :: s in Selected(o, k) <==> Rank(s) < k && Included(s, o)
  {
    if k > 0 {
      SelectedOrdered(o, k - 1);
      var before := Selected(o, k - 1);
      var s := SectionAt(k - 1);
      assert Selected(o, k) == before + Opt(Included(s, o), [s]);
      forall j | 0 <= j < |before| ensures Rank(before[j]) < k - 1 {
        assert before[j] in before;
      }
    }
  }

  lemma {:induction false} SelectedGrows(o: PolicyOptions, j: nat, k: nat)
    requires j <= k <= 8
    ensures Selected(o, j) <= Selected(o, k)
    decreases k - j
  {
    if j < k {
      SelectedGrows(o, j, k - 1);
    }
  }

  /** A policy lists exactly the included sections, in document order. */
  lemma SectionsOrdered(o: PolicyOptions)
    ensures StrictlyRanked(Sections(o))
    ensures forall s :: s in Sections(o) <==> Included(s, o)
  {
    SelectedOrdered(o, 8);
  }

  lemma OpeningSelected(o: PolicyOptions)
    ensures Selected(o, 2) == [Header, InformationCollected]
  {
    assert Selected(o, 1) == [Header];
  }

  /** A policy starts with the header and the information text and ends
      with the Contact section. */
  lemma SectionsBoundaries(o: PolicyOptions)
    ensures var r := Sections(o);
            3 <= |r| && r[0] == Header && r[1] == InformationCollected && r[|r| - 1] == Contact
  {
    var before := Selected(o, 7);
    SelectedGrows(o, 2, 7);
    OpeningSelected(o);
    assert before[0] == Header && before[1] == InformationCollected by {
      assert [Header, InformationCollected] <= before;
    }
    assert Sections(o) == before + [Contact];
  }

  lemma RankInjective(x: Section, y: Section)
    requires Rank(x) == Rank(y)
    ensures x == y
  {
  }

  lemma LeastRanked(r: seq<Section>, s: Section)
    requires StrictlyRanked(r) && s in r
    ensures Rank(r[0]) <= Rank(s)
  {
    var i :| 0 <= i < |r| && r[i] == s;
    if i > 0 {
      assert Rank(r[0]) < Rank(r[i]);
    }
  }

  lemma TailMembers(r: seq<Section>, s: Section)
    requires StrictlyRanked(r) && r != []
    ensures s in r[1..] <==> s in r && Rank(r[0]) < Rank(s)
  {
    if s in r[1..] {
      var k :| 0 <= k < |r| - 1 && r[1..][k] == s;
      assert r[k + 1] == s;
    }
    if s in r && Rank(r[0]) < Rank(s) {
      var i :| 0 <= i < |r| && r[i] == s;
      assert r[1..][i - 1] == s;
    }
  }

  lemma FirstMember(b: seq<Section>)
    requires b != []
    ensures b[0] in b
  {
  }

  /** Two lists in document order with the same members are the same list. */
  lemma {:induction false} RankedListsUnique(a: seq<Section>, b: seq<Section>)
    requires StrictlyRanked(a) && StrictlyRanked(b)
    requires forall s :: s in a <==> s in b
    ensures a == b
    decreases |a|
  {
    if a == [] {
      if b != [] {
        FirstMember(b);
        assert false;
      }
    } else {
      assert a[0] in b;
      assert b[0] in a;
      LeastRanked(a, b[0]);
      LeastRanked(b, a[0]);
      RankInjective(a[0], b[0]);
      forall s
        ensures s in a[1..] <==> s in b[1..]
      {
        TailMembers(a, s);
        TailMembers(b, s);
      }
      RankedListsUnique(a[1..], b[1..]);
      assert a == [a[0]] + a[1..] && b == [b[0]] + b[1..];
    }
  }

  /** The order of a policy is fixed by which sections it has and nothing
      else: any listing of exactly the included sections in document order
      is Sections(o). */
  lemma SectionsDetermined(o: PolicyOptions, r: seq<Section>)
    requires StrictlyRanked(r)
    requires forall s :: s in r <==> Included(s, o)
    ensures r == Sections(o)
  {
    SectionsOrdered(o);
    RankedListsUnique(r, Sections(o));
  }

  // ---------------------------------------------------------------------
  // The document text

  /** The text under "Information We Collect" the options choose. */
  function InfoBlock(f: Fragments, o: PolicyOptions): Block
  {
    if o.collectsPersonalInfo then f.personalInfo else f.noPersonalInfo
  }

  /** The text one section contributes. */
  function SectionText(s: Section, f: Fragments, o: PolicyOptions): string
  {
    match s
    case Header => f.header
    case InformationCollected => InfoBlock(f, o).Text()
    case Cookies => f.cookies.Text()
    case Analytics => f.analytics.Text()
    case Sharing => f.sharing.Text()
    case Gdpr => f.gdpr.Text()
    case Ccpa => f.ccpa.Text()
    case Contact => f.contact.Text()
  }

  /** The concatenated text of a list of sections. */
  function Render(secs: seq<Section>, f: Fragments, o: PolicyOptions): string
  {
    if secs == [] then "" else SectionText(secs[0], f, o) + Render(secs[1..], f, o)
  }

  /** The text of the included sections before position k, built the way
      the generator builds it: one section at a time, in the fixed order,
      appending a section's text only when the options include it. */
  function TextBefore(f: Fragments, o: PolicyOptions, k: nat): string
    requires k <= 8
  {
    if k == 0 then ""
    else TextBefore(f, o, k - 1) + Opt(Included(SectionAt(k - 1), o), SectionText(SectionAt(k - 1), f, o))
  }

  /** The whole document of a table of texts and options. */
  function Document(f: Fragments, o: PolicyOptions): string
  {
    TextBefore(f, o, 8)
  }

  /** The policy document for a site, options and "Last Updated" date. */
  function PolicyDocument(info: SiteInfo, o: PolicyOptions, date: string): string
  {
    Document(FragmentsFor(info, date), o)
  }

  lemma PolicyDocumentUnfold(info: SiteInfo, o: PolicyOptions, date: string)
    ensures PolicyDocument(info, o, date) == Document(FragmentsFor(info, date), o)
  {
  }

  lemma {:induction false} RenderAppend(a: seq<Section>, b: seq<Section>, f: Fragments, o: PolicyOptions)
    ensures Render(a + b, f, o) == Render(a, f, o) + Render(b, f, o)
  {
    if a != [] {
      assert (a + b)[1..] == a[1..] + b;
      RenderAppend(a[1..], b, f, o);
    } else {
      assert a + b == b;
    }
  }

  lemma {:induction false} RenderSelected(f: Fragments, o: PolicyOptions, k: nat)
    requires k <= 8
    ensures Render(Selected(o, k), f, o) == TextBefore(f, o, k)
  {
    if k > 0 {
      RenderSelected(f, o, k - 1);
      var s := SectionAt(k - 1);
      RenderAppend(Selected(o, k - 1), Opt(Included(s, o), [s]), f, o);
      if Included(s, o) {
        assert Render([s], f, o) == SectionText(s, f, o) + Render([], f, o);
      }
    }
  }

  /** The text of any table's document is the texts of its sections, one
      after the other, in the order Sections gives. */
  lemma DocumentRenders(f: Fragments, o: PolicyOptions)
    ensures Document(f, o) == Render(Sections(o), f, o)
  {
    RenderSelected(f, o, 8);
  }

  /** The text of a policy is the texts of its sections, in order. */
  lemma DocumentRendersSections(info: SiteInfo, o: PolicyOptions, date: string)
    ensures PolicyDocument(info, o, date) == Render(Sections(o), FragmentsFor(info, date), o)
  {
    PolicyDocumentUnfold(info, o, date);
    DocumentRenders(FragmentsFor(info, date), o);
  }

  /** The blocks at positions 2 to 7: the optional sections, then Contact. */
  function BlockAt(f: Fragments, k: nat): Block
    requires 2 <= k <= 7
  {
    if k == 2 then f.cookies
    else if k == 3 then f.analytics
    else if k == 4 then f.sharing
    else if k == 5 then f.gdpr
    else if k == 6 then f.ccpa
    else f.contact
  }

  lemma SectionBlock(f: Fragments, o: PolicyOptions, k: nat)
    requires 2 <= k <= 7
    ensures SectionText(SectionAt(k), f, o) == BlockAt(f, k).Text()
  {
  }

  /** The text of the included sections from position k on, contact last. */
  function Tail(f: Fragments, o: PolicyOptions, k: nat): string
    requires 2 <= k <= 7
    decreases 7 - k
  {
    if k == 7 then f.contact.Text()
    else Opt(Included(SectionAt(k), o), BlockAt(f, k).Text()) + Tail(f, o, k + 1)
  }

  /** At every position k the document is the text before k followed by
      the tail from k. */
  lemma {:induction false} SplitAt(f: Fragments, o: PolicyOptions, k: nat)
    requires 2 <= k <= 7
    ensures Document(f, o) == TextBefore(f, o, k) + Tail(f, o, k)
    decreases 7 - k
  {
    if k < 7 {
      SplitAt(f, o, k + 1);
      SectionBlock(f, o, k);
      var before, piece, rest := TextBefore(f, o, k), Opt(Included(SectionAt(k), o), BlockAt(f, k).Text()), Tail(f, o, k + 1);
      assert TextBefore(f, o, k + 1) == before + piece;
      assert Tail(f, o, k) == piece + rest;
      AppendAssociates(before, piece, rest);
    }
  }

  lemma AppendAssociates(a: string, b: string, c: string)
    ensures (a + b) + c == a + (b + c)
  {
  }

  lemma OpeningSections(f: Fragments, o: PolicyOptions)
    ensures TextBefore(f, o, 2) == f.header + InfoBlock(f, o).Text()
  {
    assert TextBefore(f, o, 1) == f.header;
  }

  /** The document of any table: header, information text, then the tail
      of optional sections ending with contact. */
  lemma TextLayout(f: Fragments, o: PolicyOptions)
    ensures Document(f, o) == f.header + InfoBlock(f, o).Text() + Tail(f, o, 2)
  {
    SplitAt(f, o, 2);
    OpeningSections(f, o);
  }

  /** The generator's loop over the sections, for any table of texts: the
      header, one of the two information texts, each optional section whose
      option is set, and the Contact section. */
  method BuildPolicy(f: Fragments, o: PolicyOptions) returns (policy: string)
    ensures policy == Document(f, o)
  {
    policy := f.header;
    assert policy == TextBefore(f, o, 1);
    if o.collectsPersonalInfo {
      policy := policy + f.personalInfo.Text();
    } else {
      policy := policy + f.noPersonalInfo.Text();
    }
    assert policy == TextBefore(f, o, 2);
    if o.collectsCookies {
      policy := policy + f.cookies.Text();
    }
    assert policy == TextBefore(f, o, 3);
    if o.usesAnalytics {
      policy := policy + f.analytics.Text();
    }
    assert policy == TextBefore(f, o, 4);
    if o.sharesData {
      policy := policy + f.sharing.Text();
    }
    assert policy == TextBefore(f, o, 5);
    if o.gdprCompliant {
      policy := policy + f.gdpr.Text();
    }
    assert policy == TextBefore(f, o, 6);
    if o.ccpaCompliant {
      policy := policy + f.ccpa.Text();
    }
    assert policy == TextBefore(f, o, 7);
    policy := policy + f.contact.Text();
  }

  /** The generator: the site's texts, dated `date`, assembled for the six
      options. `date` stands for the formatted current date. */
  method GeneratePrivacyPolicy(
    websiteName: string, websiteUrl: string, companyName: string, contactEmail: string,
    gdprCompliant: bool, ccpaCompliant: bool, collectsPersonalInfo: bool,
    collectsCookies: bool, sharesData: bool, usesAnalytics: bool, date: string)
    returns (policy: string)
    ensures policy == PolicyDocument(
                        SiteInfo(websiteName, websiteUrl, companyName, contactEmail),
                        PolicyOptions(gdprCompliant, ccpaCompliant, collectsPersonalInfo,
                                      collectsCookies, sharesData, usesAnalytics),
                        date)
  {
    policy := BuildPolicy(
      FragmentsFor(SiteInfo(websiteName, websiteUrl, companyName, contactEmail), date),
      PolicyOptions(gdprCompliant, ccpaCompliant, collectsPersonalInfo,
                    collectsCookies, sharesData, usesAnalytics));
  }

  // ---------------------------------------------------------------------
  // Where the document starts and ends

  lemma PrefixOfAppend(a: string, b: string)
    ensures a <= a + b && (a + b)[|a|..] == b
  {
    assert (a + b)[..|a|] == a;
  }

  /** `t` is the first part of `s`. */
  predicate StartsWith(s: string, t: string)
  {
    t <= s
  }

  /** `t` is the last part of `s`. */
  predicate EndsWith(s: string, t: string)
  {
    |t| <= |s| && s[|s| - |t|..] == t
  }

  /** For any table, the document opens with the header and the
      information text and closes with the contact text. */
  lemma TextBounds(f: Fragments, o: PolicyOptions)
    ensures StartsWith(Document(f, o), f.header + InfoBlock(f, o).Text())
    ensures EndsWith(Document(f, o), f.contact.Text())
  {
    TextLayout(f, o);
    PrefixOfAppend(f.header + InfoBlock(f, o).Text(), Tail(f, o, 2));
    SplitAt(f, o, 7);
    PrefixOfAppend(TextBefore(f, o, 7), f.contact.Text());
  }

  /** Every policy opens with the header (naming the site, the date, the
      company and the URL), immediately followed by the text under
      "Information We Collect" that the options choose. */
  lemma DocumentStartsWithHeader(info: SiteInfo, o: PolicyOptions, date: string)
    ensures StartsWith(PolicyDocument(info, o, date),
                       FragmentsFor(info, date).header + InfoBlock(FragmentsFor(info, date), o).Text())
  {
    PolicyDocumentUnfold(info, o, date);
    TextBounds(FragmentsFor(info, date), o);
  }

  /** Every policy, whatever its options, closes with the Contact Us section. */
  lemma DocumentEndsWithContact(info: SiteInfo, o: PolicyOptions, date: string)
    ensures EndsWith(PolicyDocument(info, o, date), FragmentsFor(info, date).contact.Text())
  {
    PolicyDocumentUnfold(info, o, date);
    TextBounds(FragmentsFor(info, date), o);
  }

  // ---------------------------------------------------------------------
  // Optional sections appear in the text; the regulation sections name
  // the contact email

  /** `t` occurs in `s` as a contiguous piece. */
  predicate Mentions(s: string, t: string)
  {
    exists i :: 0 <= i <= |s| && t <= s[i..]
  }

  lemma MentionsItself(t: string)
    ensures Mentions(t, t)
  {
    assert t <= t[0..];
  }

  lemma MentionsAfter(a: string, s: string, t: string)
    requires Mentions(s, t)
    ensures Mentions(a + s, t)
  {
    var i :| 0 <= i <= |s| && t <= s[i..];
    assert (a + s)[|a| + i..] == s[i..];
  }

  lemma MentionsBefore(s: string, b: string, t: string)
    requires Mentions(s, t)
    ensures Mentions(s + b, t)
  {
    var i :| 0 <= i <= |s| && t <= s[i..];
    assert (s + b)[i..] == s[i..] + b;
  }

  /** The closing sentence of a regulation section names the email, after
      any list of rights. */
  lemma ExerciseRightsNamesEmail(rights: string, contactEmail: string)
    ensures Mentions(rights + ExerciseRightsText(contactEmail), contactEmail)
  {
    MentionsItself(contactEmail);
    MentionsAfter(ExerciseRightsLead(), contactEmail, contactEmail);
    MentionsBefore(ExerciseRightsLead() + contactEmail, ".\n\n", contactEmail);
    MentionsAfter(rights, ExerciseRightsText(contactEmail), contactEmail);
  }

  lemma BlockMentions(b: Block, t: string)
    requires Mentions(b.rest, t)
    ensures Mentions(b.Text(), t)
  {
    MentionsAfter(b.opening, b.rest, t);
  }

  /** For any table, an included optional section's text is part of the
      document. */
  lemma IncludedBlockMentioned(f: Fragments, o: PolicyOptions, k: nat)
    requires 2 <= k < 7 && Included(SectionAt(k), o)
    ensures Mentions(Document(f, o), BlockAt(f, k).Text())
  {
    SplitAt(f, o, k);
    MentionsItself(BlockAt(f, k).Text());
    MentionsBefore(BlockAt(f, k).Text(), Tail(f, o, k + 1), BlockAt(f, k).Text());
    MentionsAfter(TextBefore(f, o, k), BlockAt(f, k).Text() + Tail(f, o, k + 1), BlockAt(f, k).Text());
  }

  /** For any table, each optional section whose option is set is part of
      the document. */
  lemma IncludedSectionsMentioned(f: Fragments, o: PolicyOptions)
    ensures o.collectsCookies ==> Mentions(Document(f, o), f.cookies.Text())
    ensures o.usesAnalytics ==> Mentions(Document(f, o), f.analytics.Text())
    ensures o.sharesData ==> Mentions(Document(f, o), f.sharing.Text())
    ensures o.gdprCompliant ==> Mentions(Document(f, o), f.gdpr.Text())
    ensures o.ccpaCompliant ==> Mentions(Document(f, o), f.ccpa.Text())
  {
    if o.collectsCookies { IncludedBlockMentioned(f, o, 2); }
    if o.usesAnalytics { IncludedBlockMentioned(f, o, 3); }
    if o.sharesData { IncludedBlockMentioned(f, o, 4); }
    if o.gdprCompliant { IncludedBlockMentioned(f, o, 5); }
    if o.ccpaCompliant { IncludedBlockMentioned(f, o, 6); }
  }

  /** The text of each regulation section names the contact email. */
  lemma RegulationBodyNamesEmail(s: Section, contactEmail: string)
    requires s.Gdpr? || s.Ccpa?
    ensures Mentions(RegulationBody(s, contactEmail), contactEmail)
  {
    ExerciseRightsNamesEmail(RightsList(s), contactEmail);
  }

  /** A regulation section's block, under any heading, names the email. */
  lemma RegulationBlockNamesEmail(heading: string, s: Section, contactEmail: string)
    requires s.Gdpr? || s.Ccpa?
    ensures Mentions(Block(heading, RegulationBody(s, contactEmail)).Text(), contactEmail)
  {
    RegulationBodyNamesEmail(s, contactEmail);
    BlockMentions(Block(heading, RegulationBody(s, contactEmail)), contactEmail);
  }

  /** The generator's GDPR section names the contact email. */
  lemma GdprSectionNamesEmail(info: SiteInfo, date: string)
    ensures Mentions(FragmentsFor(info, date).gdpr.Text(), info.contactEmail)
  {
    RegulationBlockNamesEmail(Heading(Gdpr), Gdpr, info.contactEmail);
  }

  /** The generator's CCPA section names the contact email. */
  lemma CcpaSectionNamesEmail(info: SiteInfo, date: string)
    ensures Mentions(FragmentsFor(info, date).ccpa.Text(), info.contactEmail)
  {
    RegulationBlockNamesEmail(Heading(Ccpa), Ccpa, info.contactEmail);
  }

  /** A policy carries the text of each optional section whose option is
      set (positions 2 to 6: cookies, analytics, sharing, GDPR, CCPA). */
  lemma PolicyCarriesIncludedSections(info: SiteInfo, o: PolicyOptions, date: string)
    ensures forall k :: 2 <= k < 7 && Included(SectionAt(k), o) ==>
              Mentions(PolicyDocument(info, o, date), BlockAt(FragmentsFor(info, date), k).Text())
  {
    forall k | 2 <= k < 7 && Included(SectionAt(k), o)
      ensures Mentions(PolicyDocument(info, o, date), BlockAt(FragmentsFor(info, date), k).Text())
    {
      IncludedBlockMentioned(FragmentsFor(info, date), o, k);
    }
  }

  // ---------------------------------------------------------------------
  // Reading the options back out of a document

  /** Drop a fragment from the front of a text when the text starts with it. */
  function Skip(block: string, s: string): (r: string)
    ensures s == Opt(block <= s, block) + r
  {
    if block <= s then s[|block|..] else s
  }

  /** The flags of the sections from position k on, read off a text in
      the generator's order; the text must end with exactly the Contact
      section. */
  function DecodeFrom(r: string, f: Fragments, k: nat): (flags: Option<seq<bool>>)
    requires 2 <= k <= 7
    ensures flags.Some? ==> |flags.value| == 7 - k
    decreases 7 - k
  {
    if k == 7 then
      if r == f.contact.Text() then Some([]) else None
    else
      var b := BlockAt(f, k).Text();
      match DecodeFrom(Skip(b, r), f, k + 1)
      case None => None
      case Some(later) => Some([b <= r] + later)
  }

  /** The five optional-section flags, in position order: cookies,
      analytics, sharing, GDPR, CCPA. */
  function FlagsFrom(o: PolicyOptions, k: nat): seq<bool>
    requires 2 <= k <= 7
    decreases 7 - k
  {
    if k == 7 then [] else [Included(SectionAt(k), o)] + FlagsFrom(o, k + 1)
  }

  /** The options of a personal-information choice and the five flags. */
  function OptionsOf(personal: bool, flags: seq<bool>): PolicyOptions
    requires |flags| == 5
  {
    PolicyOptions(flags[3], flags[4], personal, flags[0], flags[2], flags[1])
  }

  /** Reads a document the way the generator wrote it: the header, one of
      the two information texts, then each optional section in order, then
      the Contact section and nothing more. */
  function DecodeWith(doc: string, f: Fragments): Option<PolicyOptions>
  {
    if !(f.header <= doc) then None
    else
      var r := doc[|f.header|..];
      var personal := f.personalInfo.Text() <= r;
      if !personal && !(f.noPersonalInfo.Text() <= r) then None
      else
        var info := if personal then f.personalInfo else f.noPersonalInfo;
        match DecodeFrom(r[|info.Text()|..], f, 2)
        case None => None
        case Some(flags) => Some(OptionsOf(personal, flags))
  }

  /** The options whose policy for this site and date `doc` is, if any. */
  function DecodeOptions(doc: string, info: SiteInfo, date: string): Option<PolicyOptions>
  {
    DecodeWith(doc, FragmentsFor(info, date))
  }

  lemma DecodeOptionsUnfold(doc: string, info: SiteInfo, date: string)
    ensures DecodeOptions(doc, info, date) == DecodeWith(doc, FragmentsFor(info, date))
  {
  }

  /** The first seven characters of a text. */
  function Tag(s: string): string
  {
    if |s| < 7 then s else s[..7]
  }

  lemma TagAppend(a: string, b: string)
    requires 7 <= |a|
    ensures Tag(a + b) == Tag(a)
  {
    assert (a + b)[..7] == a[..7];
  }

  lemma NotPrefixByTag(block: string, s: string)
    requires 7 <= |block| && 7 <= |s| && Tag(block) != Tag(s)
    ensures !(block <= s)
  {
    if |block| <= |s| {
      assert s[..7] == s[..|block|][..7];
    }
  }

  /** A table whose texts can be told apart by their first seven
      characters: the two information texts, and the optional sections and
      Contact among themselves. */
  predicate Distinguishable(f: Fragments)
  {
    && 7 <= |f.personalInfo.opening| && 7 <= |f.noPersonalInfo.opening|
    && Tag(f.personalInfo.opening) != Tag(f.noPersonalInfo.opening)
    && (forall k :: 2 <= k <= 7 ==> 7 <= |BlockAt(f, k).opening|)
    && (forall j, k :: 2 <= j < k <= 7 ==> Tag(BlockAt(f, j).opening) != Tag(BlockAt(f, k).opening))
  }

  lemma BlockTag(b: Block)
    requires 7 <= |b.opening|
    ensures 7 <= |b.Text()| && Tag(b.Text()) == Tag(b.opening)
  {
    TagAppend(b.opening, b.rest);
  }

  /** Any table whose openings start the way the generator's do can be
      told apart. */
  lemma OpeningsDistinguish(f: Fragments)
    requires 7 <= |f.personalInfo.opening| && Tag(f.personalInfo.opening) == "We may "
    requires 7 <= |f.noPersonalInfo.opening| && Tag(f.noPersonalInfo.opening) == "We do n"
    requires 7 <= |f.cookies.opening| && Tag(f.cookies.opening) == "### Coo"
    requires 7 <= |f.analytics.opening| && Tag(f.analytics.opening) == "### Ana"
    requires 7 <= |f.sharing.opening| && Tag(f.sharing.opening) == "### Sha"
    requires 7 <= |f.gdpr.opening| && Tag(f.gdpr.opening) == "### GDP"
    requires 7 <= |f.ccpa.opening| && Tag(f.ccpa.opening) == "### CCP"
    requires 7 <= |f.contact.opening| && Tag(f.contact.opening) == "### Con"
    ensures Distinguishable(f)
  {
  }

  /** The first characters of the generator's openings. */
  lemma InformationOpenings()
    ensures 7 <= |InformationLead(true)| && Tag(InformationLead(true)) == "We may "
    ensures 7 <= |InformationLead(false)| && Tag(InformationLead(false)) == "We do n"
  {
  }

  lemma OpeningTag(s: string, tag: string, rest: string)
    requires s == tag + rest && |tag| == 7
    ensures 7 <= |s| && Tag(s) == tag
  {
    TagAppend(tag, rest);
  }

  lemma CookiesOpening()
    ensures 7 <= |Heading(Cookies)| && Tag(Heading(Cookies)) == "### Coo"
  {
    OpeningTag(Heading(Cookies), "### Coo", "kies and Tracking Technologies\n\n");
  }

  lemma AnalyticsOpening()
    ensures 7 <= |Heading(Analytics)| && Tag(Heading(Analytics)) == "### Ana"
  {
    OpeningTag(Heading(Analytics), "### Ana", "lytics\n\n");
  }

  lemma SharingOpening()
    ensures 7 <= |Heading(Sharing)| && Tag(Heading(Sharing)) == "### Sha"
  {
    OpeningTag(Heading(Sharing), "### Sha", "ring Your Information\n\n");
  }

  lemma GdprOpening()
    ensures 7 <= |Heading(Gdpr)| && Tag(Heading(Gdpr)) == "### GDP"
  {
    OpeningTag(Heading(Gdpr), "### GDP", "R Compliance\n\n");
  }

  lemma CcpaOpening()
    ensures 7 <= |Heading(Ccpa)| && Tag(Heading(Ccpa)) == "### CCP"
  {
    OpeningTag(Heading(Ccpa), "### CCP", "A Compliance\n\n");
  }

  lemma ContactOpening()
    ensures 7 <= |Heading(Contact)| && Tag(Heading(Contact)) == "### Con"
  {
    OpeningTag(Heading(Contact), "### Con", "tact Us\n\n");
  }

  lemma HeadingOpenings()
    ensures 7 <= |Heading(Cookies)| && Tag(Heading(Cookies)) == "### Coo"
    ensures 7 <= |Heading(Analytics)| && Tag(Heading(Analytics)) == "### Ana"
    ensures 7 <= |Heading(Sharing)| && Tag(Heading(Sharing)) == "### Sha"
    ensures 7 <= |Heading(Gdpr)| && Tag(Heading(Gdpr)) == "### GDP"
    ensures 7 <= |Heading(Ccpa)| && Tag(Heading(Ccpa)) == "### CCP"
    ensures 7 <= |Heading(Contact)| && Tag(Heading(Contact)) == "### Con"
  {
    CookiesOpening();
    AnalyticsOpening();
    SharingOpening();
    GdprOpening();
    CcpaOpening();
    ContactOpening();
  }

  /** The generator's own texts can be told apart. */
  lemma StandardFragmentsDistinguishable(info: SiteInfo, date: string)
    ensures Distinguishable(FragmentsFor(info, date))
  {
    InformationOpenings();
    HeadingOpenings();
    OpeningsDistinguish(FragmentsFor(info, date));
  }

  /** One optional section: the decoder reads its flag right and moves on
      to the tail, provided the tail does not start like the section. */
  lemma SkipOpt(present: bool, block: string, tail: string)
    requires 7 <= |block| && 7 <= |tail| && Tag(block) != Tag(tail)
    ensures (block <= Opt(present, block) + tail) == present
    ensures Skip(block, Opt(present, block) + tail) == tail
  {
    if present {
      PrefixOfAppend(block, tail);
    } else {
      NotPrefixByTag(block, tail);
      assert Opt(present, block) + tail == tail;
    }
  }

  lemma TailStep(f: Fragments, o: PolicyOptions, k: nat)
    requires 2 <= k < 7
    ensures Tail(f, o, k) == Opt(Included(SectionAt(k), o), BlockAt(f, k).Text()) + Tail(f, o, k + 1)
  {
  }

  lemma FlagsStep(o: PolicyOptions, k: nat)
    requires 2 <= k < 7
    ensures FlagsFrom(o, k) == [Included(SectionAt(k), o)] + FlagsFrom(o, k + 1)
  {
  }

  /** A tail of a distinguishable table is at least a tag long and does
      not start like any block before its position. */
  lemma {:induction false} TailTag(f: Fragments, o: PolicyOptions, k: nat, i: nat)
    requires Distinguishable(f) && 2 <= i < k <= 7
    ensures 7 <= |Tail(f, o, k)| && Tag(Tail(f, o, k)) != Tag(BlockAt(f, i).Text())
    decreases 7 - k
  {
    BlockTag(BlockAt(f, i));
    BlockTag(BlockAt(f, k));
    if k == 7 {
      assert Tail(f, o, k) == BlockAt(f, k).Text();
    } else {
      TailStep(f, o, k);
      if Included(SectionAt(k), o) {
        TagAppend(BlockAt(f, k).Text(), Tail(f, o, k + 1));
      } else {
        TailTag(f, o, k + 1, i);
      }
    }
  }

  /** One decoding step: a block that the rest does not start like is
      recognised exactly when it is there, and skipped. */
  lemma DecodeStep(f: Fragments, k: nat, present: bool, rest: string, later: seq<bool>)
    requires 2 <= k < 7
    requires 7 <= |BlockAt(f, k).Text()| && 7 <= |rest|
    requires Tag(rest) != Tag(BlockAt(f, k).Text())
    requires DecodeFrom(rest, f, k + 1) == Some(later)
    ensures DecodeFrom(Opt(present, BlockAt(f, k).Text()) + rest, f, k) == Some([present] + later)
  {
    SkipOpt(present, BlockAt(f, k).Text(), rest);
  }

  /** Undoing one decoding step: an accepted text starts with the block
      exactly when the first flag says so, and the rest is accepted. */
  lemma DecodeUnstep(r: string, f: Fragments, k: nat)
    requires 2 <= k < 7 && DecodeFrom(r, f, k).Some?
    ensures DecodeFrom(Skip(BlockAt(f, k).Text(), r), f, k + 1).Some?
    ensures DecodeFrom(r, f, k).value
            == [BlockAt(f, k).Text() <= r] + DecodeFrom(Skip(BlockAt(f, k).Text(), r), f, k + 1).value
  {
  }

  lemma DecodeContact(f: Fragments, o: PolicyOptions)
    ensures DecodeFrom(Tail(f, o, 7), f, 7) == Some(FlagsFrom(o, 7))
  {
  }

  /** Decoding a tail of a distinguishable table recovers its flags. */
  lemma {:induction false} DecodeFromTail(f: Fragments, o: PolicyOptions, k: nat)
    requires Distinguishable(f) && 2 <= k <= 7
    ensures DecodeFrom(Tail(f, o, k), f, k) == Some(FlagsFrom(o, k))
    decreases 7 - k
  {
    if k == 7 {
      DecodeContact(f, o);
    } else {
      BlockTag(BlockAt(f, k));
      TailTag(f, o, k + 1, k);
      DecodeFromTail(f, o, k + 1);
      TailStep(f, o, k);
      FlagsStep(o, k);
      DecodeStep(f, k, Included(SectionAt(k), o), Tail(f, o, k + 1), FlagsFrom(o, k + 1));
    }
  }

  lemma ConsInjective<T>(x: T, xs: seq<T>, y: T, ys: seq<T>)
    requires [x] + xs == [y] + ys
    ensures x == y && xs == ys
  {
    assert x == ([x] + xs)[0] && y == ([y] + ys)[0];
    assert xs == ([x] + xs)[1..] && ys == ([y] + ys)[1..];
  }

  lemma ContactSound(r: string, f: Fragments, o: PolicyOptions)
    requires DecodeFrom(r, f, 7).Some?
    ensures r == Tail(f, o, 7)
  {
  }

  /** A text the decoder accepts is the tail of the flags it yields. */
  lemma {:induction false} DecodeFromSound(r: string, f: Fragments, o: PolicyOptions, k: nat)
    requires 2 <= k <= 7
    requires DecodeFrom(r, f, k) == Some(FlagsFrom(o, k))
    ensures r == Tail(f, o, k)
    decreases 7 - k
  {
    if k == 7 {
      ContactSound(r, f, o);
    } else {
      var b := BlockAt(f, k).Text();
      DecodeUnstep(r, f, k);
      FlagsStep(o, k);
      var later := DecodeFrom(Skip(b, r), f, k + 1).value;
      ConsInjective(b <= r, later, Included(SectionAt(k), o), FlagsFrom(o, k + 1));
      DecodeFromSound(Skip(b, r), f, o, k + 1);
      TailStep(f, o, k);
    }
  }

  lemma FlagsOfRegulations(o: PolicyOptions)
    ensures FlagsFrom(o, 5) == [o.gdprCompliant, o.ccpaCompliant]
  {
    assert FlagsFrom(o, 6) == [o.ccpaCompliant];
  }

  lemma FlagsOfSharing(o: PolicyOptions)
    ensures FlagsFrom(o, 4) == [o.sharesData, o.gdprCompliant, o.ccpaCompliant]
  {
    FlagsOfRegulations(o);
  }

  lemma FlagsOfOptions(o: PolicyOptions)
    ensures FlagsFrom(o, 2) == [o.collectsCookies, o.usesAnalytics, o.sharesData, o.gdprCompliant, o.ccpaCompliant]
  {
    FlagsOfSharing(o);
    assert FlagsFrom(o, 3) == [o.usesAnalytics, o.sharesData, o.gdprCompliant, o.ccpaCompliant];
  }

  /** Building options from five flags and listing their flags again gives
      the same flags. */
  lemma FlagsRoundTrip(personal: bool, flags: seq<bool>)
    requires |flags| == 5
    ensures FlagsFrom(OptionsOf(personal, flags), 2) == flags
  {
    FlagsOfOptions(OptionsOf(personal, flags));
  }

  /** For any table, the document after the header is the information text
      followed by the tail. */
  lemma AfterHeader(f: Fragments, o: PolicyOptions)
    ensures f.header <= Document(f, o)
    ensures Document(f, o)[|f.header|..] == InfoBlock(f, o).Text() + Tail(f, o, 2)
  {
    TextLayout(f, o);
    AppendAssociates(f.header, InfoBlock(f, o).Text(), Tail(f, o, 2));
    PrefixOfAppend(f.header, InfoBlock(f, o).Text() + Tail(f, o, 2));
  }

  /** In a distinguishable table, exactly the information text the options
      choose starts the information text followed by the tail. */
  lemma InformationChoice(f: Fragments, o: PolicyOptions, body: string)
    requires Distinguishable(f)
    requires body == InfoBlock(f, o).Text() + Tail(f, o, 2)
    ensures f.personalInfo.Text() <= body <==> o.collectsPersonalInfo
    ensures f.noPersonalInfo.Text() <= body <==> !o.collectsPersonalInfo
    ensures body[|InfoBlock(f, o).Text()|..] == Tail(f, o, 2)
  {
    BlockTag(f.personalInfo);
    BlockTag(f.noPersonalInfo);
    PrefixOfAppend(InfoBlock(f, o).Text(), Tail(f, o, 2));
    TagAppend(InfoBlock(f, o).Text(), Tail(f, o, 2));
    if o.collectsPersonalInfo {
      NotPrefixByTag(f.noPersonalInfo.Text(), body);
    } else {
      NotPrefixByTag(f.personalInfo.Text(), body);
    }
  }

  /** Decoding any distinguishable table's document recovers its options. */
  lemma DecodeRendered(f: Fragments, o: PolicyOptions)
    requires Distinguishable(f)
    ensures DecodeWith(Document(f, o), f) == Some(o)
  {
    AfterHeader(f, o);
    InformationChoice(f, o, Document(f, o)[|f.header|..]);
    DecodeFromTail(f, o, 2);
    FlagsOfOptions(o);
  }

  lemma SplitPrefix(s: string, p: string)
    requires p <= s
    ensures s == p + s[|p|..]
  {
    assert s[..|p|] == p;
  }

  /** A document made of the header, the chosen information text and the
      tail is the document of those options. */
  lemma Reassemble(doc: string, f: Fragments, o: PolicyOptions)
    requires f.header <= doc
    requires InfoBlock(f, o).Text() <= doc[|f.header|..]
    requires doc[|f.header|..][|InfoBlock(f, o).Text()|..] == Tail(f, o, 2)
    ensures Document(f, o) == doc
  {
    SplitPrefix(doc, f.header);
    SplitPrefix(doc[|f.header|..], InfoBlock(f, o).Text());
    TextLayout(f, o);
    AppendAssociates(f.header, InfoBlock(f, o).Text(), Tail(f, o, 2));
  }

  /** A document the decoder accepts is the document of the options it
      yields (for any table). */
  lemma DecodeSoundWith(doc: string, f: Fragments)
    requires DecodeWith(doc, f).Some?
    ensures Document(f, DecodeWith(doc, f).value) == doc
  {
    var o := DecodeWith(doc, f).value;
    var r := doc[|f.header|..];
    var personal := f.personalInfo.Text() <= r;
    var rest := r[|InfoBlock(f, o).Text()|..];
    var flags := DecodeFrom(rest, f, 2).value;
    assert o == OptionsOf(personal, flags);
    FlagsRoundTrip(personal, flags);
    DecodeFromSound(rest, f, o, 2);
    Reassemble(doc, f, o);
  }

  lemma DecodeSoundFor(doc: string, f: Fragments, o: PolicyOptions)
    requires DecodeWith(doc, f) == Some(o)
    ensures Document(f, o) == doc
  {
    DecodeSoundWith(doc, f);
  }

  /** For a distinguishable table, the decoder yields o for doc exactly
      when doc is the document of o. */
  lemma DecodeIffWith(doc: string, f: Fragments, o: PolicyOptions)
    requires Distinguishable(f)
    ensures DecodeWith(doc, f) == Some(o) <==> doc == Document(f, o)
  {
    if DecodeWith(doc, f) == Some(o) {
      DecodeSoundWith(doc, f);
    }
    if doc == Document(f, o) {
      DecodeRendered(f, o);
    }
  }

  /** Decoding a generated policy recovers exactly the options it was
      generated from. */
  lemma DecodeGenerated(info: SiteInfo, o: PolicyOptions, date: string)
    ensures DecodeOptions(PolicyDocument(info, o, date), info, date) == Some(o)
  {
    PolicyDocumentUnfold(info, o, date);
    DecodeOptionsUnfold(PolicyDocument(info, o, date), info, date);
    StandardFragmentsDistinguishable(info, date);
    DecodeRendered(FragmentsFor(info, date), o);
  }

  /** A document the decoder accepts is the policy generated from the
      options it yields; with DecodeGenerated, the decoder yields o for doc
      exactly when doc is the policy generated from o. */
  lemma DecodeSound(doc: string, info: SiteInfo, o: PolicyOptions, date: string)
    requires DecodeOptions(doc, info, date) == Some(o)
    ensures PolicyDocument(info, o, date) == doc
  {
    DecodeOptionsUnfold(doc, info, date);
    PolicyDocumentUnfold(info, o, date);
    DecodeSoundFor(doc, FragmentsFor(info, date), o);
  }

  /** Each of the six options shows in the text: two different option sets
      never give the same document. */
  lemma OptionsDetermineDocument(info: SiteInfo, o1: PolicyOptions, o2: PolicyOptions, date: string)
    requires PolicyDocument(info, o1, date) == PolicyDocument(info, o2, date)
    ensures o1 == o2
  {
    DecodeGenerated(info, o1, date);
    DecodeGenerated(info, o2, date);
  }

  lemma PrefixAfterCommon(h: string, x: string, body: string)
    ensures h + x <= h + body <==> x <= body
  {
    if h + x <= h + body {
      assert x == (h + x)[|h|..] && body[..|x|] == (h + body)[|h|..|h| + |x|];
    }
  }

  /** The options with the personal-information answer reversed. */
  function OtherAnswer(o: PolicyOptions): PolicyOptions
  {
    o.(collectsPersonalInfo := !o.collectsPersonalInfo)
  }

  /** For any distinguishable table, the information text the options do
      not choose does not follow the header. */
  lemma InformationExclusiveWith(f: Fragments, o: PolicyOptions)
    requires Distinguishable(f)
    ensures !StartsWith(Document(f, o), f.header + InfoBlock(f, OtherAnswer(o)).Text())
  {
    var body := InfoBlock(f, o).Text() + Tail(f, o, 2);
    TextLayout(f, o);
    AppendAssociates(f.header, InfoBlock(f, o).Text(), Tail(f, o, 2));
    InformationChoice(f, o, body);
    PrefixAfterCommon(f.header, InfoBlock(f, OtherAnswer(o)).Text(), body);
  }

  /** Under "Information We Collect" exactly one of the two alternatives
      follows the header: the one the options choose follows it (see
      DocumentStartsWithHeader), the other does not. */
  lemma InformationExclusive(info: SiteInfo, o: PolicyOptions, date: string)
    ensures !StartsWith(PolicyDocument(info, o, date),
                        FragmentsFor(info, date).header + InfoBlock(FragmentsFor(info, date), OtherAnswer(o)).Text())
  {
    StandardFragmentsDistinguishable(info, date);
    InformationExclusiveWith(FragmentsFor(info, date), o);
  }
}
