/** The company draft held in the component's `formData` state, the merge
    of a scrape response into it, and the input boxes that edit it. */
module CompanyDraft {
  import opened JsValues

  /** The `formData` record: every field is free text. */
  datatype FormData = FormData(
    name: string,
    linkedIn: string,
    natureOfBusiness: string,
    logo: string,
    website: string,
    expectedCTC: string,
    expectedBase: string,
    expectedStipend: string,
    location: string,
    remarks: string)

  /** The draft the component starts with: every field empty. */
  const EmptyDraft := FormData("", "", "", "", "", "", "", "", "", "")

  /** The keys of `formData`. */
  datatype Field =
    | Name | LinkedIn | NatureOfBusiness | Logo | Website
    | ExpectedCTC | ExpectedBase | ExpectedStipend | Location | Remarks

  /** The value of one key of the draft. */
  function Get(f: FormData, k: Field): string {
    match k
    case Name => f.name
    case LinkedIn => f.linkedIn
    case NatureOfBusiness => f.natureOfBusiness
    case Logo => f.logo
    case Website => f.website
    case ExpectedCTC => f.expectedCTC
    case ExpectedBase => f.expectedBase
    case ExpectedStipend => f.expectedStipend
    case Location => f.location
    case Remarks => f.remarks
  }

  /** `{ ...f, [k]: v }`: the draft with key `k` set to `v` and every other
      key as it was. */
  function With(f: FormData, k: Field, v: string): (r: FormData)
    ensures Get(r, k) == v
    ensures forall k' :: k' != k ==> Get(r, k') == Get(f, k')
  {
    match k
    case Name => f.(name := v)
    case LinkedIn => f.(linkedIn := v)
    case NatureOfBusiness => f.(natureOfBusiness := v)
    case Logo => f.(logo := v)
    case Website => f.(website := v)
    case ExpectedCTC => f.(expectedCTC := v)
    case ExpectedBase => f.(expectedBase := v)
    case ExpectedStipend => f.(expectedStipend := v)
    case Location => f.(location := v)
    case Remarks => f.(remarks := v)
  }

  /** Two drafts that agree on every key are the same draft. */
  lemma DraftExtensionality(f: FormData, g: FormData)
    requires forall k :: Get(f, k) == Get(g, k)
    ensures f == g
  {
    assert Get(f, Name) == Get(g, Name);
    assert Get(f, LinkedIn) == Get(g, LinkedIn);
    assert Get(f, NatureOfBusiness) == Get(g, NatureOfBusiness);
    assert Get(f, Logo) == Get(g, Logo);
    assert Get(f, Website) == Get(g, Website);
    assert Get(f, ExpectedCTC) == Get(g, ExpectedCTC);
    assert Get(f, ExpectedBase) == Get(g, ExpectedBase);
    assert Get(f, ExpectedStipend) == Get(g, ExpectedStipend);
    assert Get(f, Location) == Get(g, Location);
    assert Get(f, Remarks) == Get(g, Remarks);
  }

  /** The body of a successful `GET /scrapCompanyProfile` response: each of
      the five fields it may carry can be absent. */
  datatype ScrapeData = ScrapeData(
    name: Option<string>,
    natureOfBusiness: Option<string>,
    website: Option<string>,
    linkedIn: Option<string>,
    logo: Option<string>)

  /** The keys a scrape response may fill in. */
  const ScrapedFields: set<Field> := {Name, NatureOfBusiness, Website, LinkedIn, Logo}

  /** The response value for a key; keys the response never carries are
      absent. */
  function Scraped(d: ScrapeData, k: Field): (v: Option<string>)
    ensures k !in ScrapedFields ==> v == None
  {
    match k
    case Name => d.name
    case NatureOfBusiness => d.natureOfBusiness
    case Website => d.website
    case LinkedIn => d.linkedIn
    case Logo => d.logo
    case _ => None
  }

  /** The merge in `runScrapper`'s success continuation: each of the five
      scraped keys takes `res.data.<key> || formData.<key>`, the rest are
      spread unchanged from `formData`. */
  function Merge(f: FormData, d: ScrapeData): FormData {
    f.(name := Or(d.name, f.name),
       natureOfBusiness := Or(d.natureOfBusiness, f.natureOfBusiness),
       website := Or(d.website, f.website),
       linkedIn := Or(d.linkedIn, f.linkedIn),
       logo := Or(d.logo, f.logo))
  }

  /** Key by key: a truthy response value replaces the draft's value, an
      empty or absent one keeps it, and keys outside the five are never
      touched. */
  lemma MergeAt(f: FormData, d: ScrapeData, k: Field)
    ensures IsTruthy(Scraped(d, k)) ==> Get(Merge(f, d), k) == Scraped(d, k).value
    ensures !IsTruthy(Scraped(d, k)) ==> Get(Merge(f, d), k) == Get(f, k)
    ensures k !in ScrapedFields ==> Get(Merge(f, d), k) == Get(f, k)
  {
  }

  /** A response with nothing truthy in it leaves the draft as it was. */
  lemma MergeNothingTruthy(f: FormData, d: ScrapeData)
    requires forall k :: !IsTruthy(Scraped(d, k))
    ensures Merge(f, d) == f
  {
    forall k ensures Get(Merge(f, d), k) == Get(f, k) {
      MergeAt(f, d, k);
    }
    DraftExtensionality(Merge(f, d), f);
  }

  /** Applying the same response twice is the same as applying it once. */
  lemma MergeIdempotent(f: FormData, d: ScrapeData)
    ensures Merge(Merge(f, d), d) == Merge(f, d)
  {
  }

  /** The merged draft does not depend on the old values of keys that the
      response fills in: two drafts that differ only there merge alike. */
  lemma MergeOverrides(f: FormData, g: FormData, d: ScrapeData)
    requires forall k :: !IsTruthy(Scraped(d, k)) ==> Get(f, k) == Get(g, k)
    ensures Merge(f, d) == Merge(g, d)
  {
    forall k ensures Get(Merge(f, d), k) == Get(Merge(g, d), k) {
      MergeAt(f, d, k);
      MergeAt(g, d, k);
    }
    DraftExtensionality(Merge(f, d), Merge(g, d));
  }

  /** The text boxes of the form, in the order they are rendered. */
  datatype InputBox =
    | LinkedInBox | NameBox | NatureOfBusinessBox | LogoBox | WebsiteBox
    | CTCBox | BaseBox | StipendBox | LocationBox | RemarksBox

  /** The key a box writes: its `name` attribute, which `handleChange` uses
      as `e.target.name`. The "Company Website" box is named "logo". */
  function WrittenKey(b: InputBox): Field {
    match b
    case LinkedInBox => LinkedIn
    case NameBox => Name
    case NatureOfBusinessBox => NatureOfBusiness
    case LogoBox => Logo
    case WebsiteBox => Logo
    case CTCBox => ExpectedCTC
    case BaseBox => ExpectedBase
    case StipendBox => ExpectedStipend
    case LocationBox => Location
    case RemarksBox => Remarks
  }

  /** The key a box displays: its `value` attribute. */
  function ShownKey(b: InputBox): Field {
    match b
    case LinkedInBox => LinkedIn
    case NameBox => Name
    case NatureOfBusinessBox => NatureOfBusiness
    case LogoBox => Logo
    case WebsiteBox => Website
    case CTCBox => ExpectedCTC
    case BaseBox => ExpectedBase
    case StipendBox => ExpectedStipend
    case LocationBox => Location
    case RemarksBox => Remarks
  }

  /** The "Company Website" box is the one box that shows one key and
      writes another, and no box writes `website`. */
  lemma WebsiteBoxWritesLogo()
    ensures forall b :: WrittenKey(b) != ShownKey(b) <==> b == WebsiteBox
    ensures forall b :: WrittenKey(b) != Website
    ensures WrittenKey(WebsiteBox) == Logo
  {
  }

  /** Typing into any box leaves `website` as it was; typing into the
      "Company Website" box sets `logo`. */
  lemma EditBox(f: FormData, b: InputBox, v: string)
    ensures With(f, WrittenKey(b), v).website == f.website
    ensures b == WebsiteBox ==> With(f, WrittenKey(b), v) == f.(logo := v)
  {
  }
}
