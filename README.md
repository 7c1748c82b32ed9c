# Privacy-policy generator and sign-up checks, modelled in Dafny

This project models two pieces of a small Flask application that writes privacy policies for websites.

**The policy generator** is `generate_privacy_policy` in app.py. It takes four text fields and six yes/no options and builds a Markdown document. The text fields are the website name, the website URL, the company name and the contact email. The options are:

- GDPR compliance;
- CCPA compliance;
- whether personal information is collected;
- whether cookies are used;
- whether data is shared;
- whether analytics are used.

The document is built in a fixed order:

1. A header with the title, the "Last Updated" date and the Introduction.
2. One of two texts under "Information We Collect".
3. The Cookies, Analytics, Sharing, GDPR and CCPA sections, each only when its option is set.
4. The Contact Us section, which is always present.

**The sign-up checks** are the validation in the `signup` handler in app.py. A submitted form is checked in this order:

- all five fields are given;
- the two passwords match;
- the username is not taken;
- the email is not taken.

The first check that fails decides the message shown. A new account is stored only when all four checks pass.

The project has four files:

- `policy_text.dfy` (module `PolicyText`) holds the generator's literal texts, with the text fields and the date interpolated where app.py's f-strings put them. Each text after the header is split into a short opening, such as a heading or the first words of a sentence, and the rest of its text.
- `policy_generator.dfy` (module `PolicyGenerator`) defines:
  - which sections a policy contains and in which order (`Sections`);
  - the document text (`Document` and `PolicyDocument`);
  - the generator as a method that grows the policy string one `if` at a time, as app.py does (`BuildPolicy` and `GeneratePrivacyPolicy`);
  - a decoder that reads the six options back out of a document (`DecodeOptions`).

  Most layout lemmas are proved for any table of section texts (`Fragments`). They are then applied to the generator's own table (`FragmentsFor`).
- `signup.dfy` (module `Signup`) models the checks, the stored accounts and the account a successful sign-up adds.
- `wrappers.dfy` (module `Wrappers`) defines `Option`.

The "Last Updated" date, which app.py reads from the clock, is a `date` parameter. The password hash, which app.py computes with a library call, is a `hash` parameter.

Some descriptions of this application mention a compliance evaluator that decides GDPR and CCPA compliance and computes a risk score. app.py has no such logic. The two compliance flags are plain checkbox inputs (app.py:154-155), passed straight to the generator. The model follows app.py.

## Model

| member | source | states |
|---|---|---|
| PolicyGenerator.GeneratePrivacyPolicy | app.py:212-320 | The generated policy is the document for the given site fields, the six options and the date. The date stands in for the formatted current date. |
| PolicyGenerator.BuildPolicy | app.py:218-320 | The policy is built by appending the header, the chosen information text, each optional section whose option is set, then Contact. For any table of texts, the result equals the document of those options. |
| PolicyGenerator.SectionsOrdered | app.py:218-318 | A policy's sections are in strictly increasing fixed order: header, information, cookies, analytics, sharing, GDPR, CCPA, contact. A section is among them exactly when its option includes it. |
| PolicyGenerator.SectionsDetermined | app.py:218-318 | Any list that has exactly the included sections, in fixed order, is the policy's section list. The order depends on nothing but which sections are included. |
| PolicyGenerator.SectionsBoundaries | app.py:218-318 | Every policy has at least three sections. The first two are the header and the information text, and the last is Contact. |
| PolicyGenerator.DocumentRendersSections | app.py:218-320 | A policy's text is the texts of its sections, concatenated in section-list order. |
| PolicyGenerator.TextBounds | app.py:218-318 | For any table, the document starts with the header and the chosen information text, and ends with the contact text. |
| PolicyGenerator.DocumentStartsWithHeader | app.py:218-246 | Every policy starts with the header, immediately followed by the chosen information text. The header names the site, the date, the company and the URL. |
| PolicyGenerator.InformationExclusiveWith | app.py:233-246 | For any table whose information openings differ, the information text the options did not choose does not follow the header. |
| PolicyGenerator.InformationExclusive | app.py:233-246 | In every policy, the information text the options did not choose does not follow the header. So exactly one of the two texts is there. |
| PolicyGenerator.IncludedSectionsMentioned | app.py:248-308 | For any table, each optional section whose option is set occurs in the document. |
| PolicyGenerator.PolicyCarriesIncludedSections | app.py:248-308 | Each optional section whose option is set occurs in the generated policy as the generator's own block. |
| PolicyGenerator.RegulationBodyNamesEmail | app.py:279-308 | The text under each of the GDPR and CCPA headings names the contact email. |
| PolicyGenerator.GdprSectionNamesEmail | app.py:279-293 | The generator's GDPR section names the contact email. |
| PolicyGenerator.CcpaSectionNamesEmail | app.py:295-308 | The generator's CCPA section names the contact email. |
| PolicyGenerator.DocumentEndsWithContact | app.py:311-318 | Whatever the options, every policy ends with the Contact Us section. That section names the email, the URL and the company. |
| PolicyGenerator.StandardFragmentsDistinguishable | app.py:233-318 | The generator's texts can be told apart by their first seven characters: the two information texts from each other, and the optional sections and Contact among themselves. |
| PolicyGenerator.DecodeRendered | app.py:218-320 | For any table whose texts can be told apart, decoding the document of some options gives back those options. |
| PolicyGenerator.DecodeIffWith | app.py:218-320 | For any such table, the decoder gives options o for a text exactly when the text is the document of o. |
| PolicyGenerator.DecodeGenerated | app.py:212-320 | Decoding a generated policy gives back exactly the six options it was generated from. |
| PolicyGenerator.DecodeSound | app.py:212-320 | A text the decoder accepts is exactly the policy generated from the options it gives back. |
| PolicyGenerator.OptionsDetermineDocument | app.py:212-320 | Two different sets of options never give the same policy for the same site and date. Each option shows in the text. |
| Signup.Validate | app.py:57-83 | A rejection names a check that fails, and every check before it passes. An account is created only when no check fails. It holds the submitted username, name and email and the hash of the password. |
| Signup.FirstFailureDecides | app.py:57-73 | When a check fails and all the checks before it pass, the form is rejected by that check. |
| Signup.MessageNamesCheck | app.py:57-73 | Different checks show different messages. |
| Signup.Submit | app.py:57-85 | A rejected form leaves the stored accounts as they were. A form that passes adds exactly its new account at the end. |
| Signup.SubmitKeepsUnique | app.py:64-85 | Signing up keeps every stored account's username and email non-empty, and keeps both unique among the stored accounts. |
| Signup.ResubmissionRejected | app.py:64-85 | After a form has created an account, submitting the same form again is rejected because the username is taken. |

## Left out

- Flask routing: `render_template`, `flash`, `redirect`, the session dictionary and `login_required`. These are web-framework plumbing. `Signup.Message` gives the text the handler flashes for each failed check.
- MongoDB: conn.py, tDatabse_setup.py, man.py and the collections in app.py are not part of this model.
  - The users collection is the list of stored accounts, and `find_one` is a search of that list.
  - `insert_one` always succeeds, so the "Something went wrong" branch (app.py:86-89) is not modelled.
- created_at and last_login: these clock-valued fields of the new user record are not modelled.
- Password hashing: `generate_password_hash` is a library call. It is the opaque `hash` parameter.
- The clock: `datetime.now().strftime('%B %d, %Y')` is the `date` parameter. The date's format is not modelled.
- The `create_policy` handler stays outside the model. It turns checkboxes into booleans with `== 'on'` and stores the policy. The model takes the six booleans directly.
- Missing text fields: `request.form.get` may return None, which an f-string writes as "None". The generator model takes four strings, so a caller stands for a missing field with that text.
- The `markdown` template filter and static/js/main.js are browser or library code and are not modelled.
- Compliance evaluator and risk score: app.py has neither, so neither is modelled.
- PolicyCarriesIncludedSections: states only that a section whose option is set is present, not that the text is absent when the option is off. The user's text fields can contain any text, including a section's text, so "occurs in the document only if its option is set" is false in general. Absence is stated in two other ways instead:
  - SectionsOrdered: a section is in the section list only when its option includes it.
  - DecodeGenerated and DecodeSound: the document determines every option.
- IncludedSectionsMentioned: the same restriction, for the same reason.
