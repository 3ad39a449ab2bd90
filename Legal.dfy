/** The static legal pages shown in the modal (`getLegalPageContent`). The
    texts themselves are opaque: each page is a token with its heading. */
module Legal {

  datatype LegalContent =
    | AboutUs
    | ContactUs
    | PrivacyPolicy
    | TermsOfUse
    | PageNotFound
      /** A member every object inherits from `Object.prototype` (a function,
          or the prototype itself for `__proto__`); the modal shows its
          string conversion. */
    | InheritedMember(key: string)

  /** The keys of the `contents` object literal. */
  const LegalPages: set<string> := {"about", "contact", "privacy", "terms"}

  /** The properties a plain object literal inherits from `Object.prototype`;
      each of them is truthy. */
  const ObjectPrototypeMembers: set<string> := {
    "constructor", "hasOwnProperty", "isPrototypeOf", "propertyIsEnumerable",
    "toLocaleString", "toString", "valueOf", "__proto__",
    "__defineGetter__", "__defineSetter__", "__lookupGetter__", "__lookupSetter__"
  }

  /** The `<h1>` heading of each fixed block. */
  function Heading(c: LegalContent): string
  {
    match c
    case AboutUs => "About Us"
    case ContactUs => "Contact Us"
    case PrivacyPolicy => "Privacy Policy"
    case TermsOfUse => "Terms of Use"
    case PageNotFound => "Page Not Found"
    case InheritedMember(_) => ""
  }

  function OwnEntry(page: string): LegalContent
    requires page in LegalPages
  {
    if page == "about" then AboutUs
    else if page == "contact" then ContactUs
    else if page == "privacy" then PrivacyPolicy
    else TermsOfUse
  }

  /** `contents[page] || notFound` exactly as app.js writes it: the lookup on
      an object literal also finds the inherited members, which are truthy,
      so they escape the "not found" fallback. */
  function LegalPageContentAsWritten(page: string): (c: LegalContent)
    ensures page in LegalPages ==> c == OwnEntry(page)
    ensures page in ObjectPrototypeMembers ==> c == InheritedMember(page)
    ensures c == PageNotFound <==> page !in LegalPages && page !in ObjectPrototypeMembers
  {
    if page in LegalPages then OwnEntry(page)
    else if page in ObjectPrototypeMembers then InheritedMember(page)
    else PageNotFound
  }

  /** The as-written lookup answers the key "constructor" with a member of
      `Object.prototype` instead of the "Page Not Found" block. */
  lemma InheritedKeyEscapesNotFound()
    ensures LegalPageContentAsWritten("constructor") == InheritedMember("constructor")
    ensures LegalPageContentAsWritten("constructor") != PageNotFound
  {
  }

  /** The lookup as intended: the four own keys give their fixed block and
      every other key gives the "Page Not Found" block. */
  function LegalPageContent(page: string): (c: LegalContent)
    ensures page == "about" ==> c == AboutUs
    ensures page == "contact" ==> c == ContactUs
    ensures page == "privacy" ==> c == PrivacyPolicy && Heading(c) == "Privacy Policy"
    ensures page == "terms" ==> c == TermsOfUse
    ensures c == PageNotFound <==> page !in LegalPages
    ensures !c.InheritedMember?
  {
    if page in LegalPages then OwnEntry(page) else PageNotFound
  }

  /** The two lookups differ only on the inherited keys. */
  lemma AsWrittenAgreesOffPrototype(page: string)
    ensures LegalPageContentAsWritten(page) == LegalPageContent(page) <==> page !in ObjectPrototypeMembers
  {
  }
}
