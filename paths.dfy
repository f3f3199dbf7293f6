/**
 * The API-relative paths the tools address, and a proof that a path
 * determines the endpoint and its identifiers, provided no identifier
 * contains a '/' (the templates interpolate identifiers without escaping).
 */
module Paths {

  /** One endpoint of the banking API, with the identifiers its path interpolates. */
  datatype Route =
    | Accounts
    | Balance(accountId: string)
    | Transactions(accountId: string)
    | PendingTransactions(accountId: string)
    | Profiles
    | ProfileAccounts(profileId: string)
    | Beneficiaries
    | BeneficiaryCategories
    | ProfileBeneficiaries(profileId: string, accountId: string)
    | AuthorisationSetupDetails(profileId: string, accountId: string)
    | TransferMultiple(accountId: string)
    | PayMultiple(accountId: string)
    | Documents(accountId: string)
    | Document(accountId: string, documentType: string, documentDate: string)

  predicate SlashFree(s: string) {
    forall i :: 0 <= i < |s| ==> s[i] != '/'
  }

  lemma ConstantsSlashFree()
    ensures SlashFree("za") && SlashFree("pb") && SlashFree("v1") && SlashFree("accounts") && SlashFree("balance")
    ensures SlashFree("transactions") && SlashFree("pending-transactions") && SlashFree("profiles")
    ensures SlashFree("beneficiaries") && SlashFree("beneficiarycategories") && SlashFree("authorisationsetupdetails")
    ensures SlashFree("transfermultiple") && SlashFree("paymultiple") && SlashFree("documents") && SlashFree("document")
  {
  }

  /** Every identifier the route interpolates is free of '/'. */
  predicate IdsSlashFree(r: Route) {
    match r
    case Balance(a) => SlashFree(a)
    case Transactions(a) => SlashFree(a)
    case PendingTransactions(a) => SlashFree(a)
    case ProfileAccounts(p) => SlashFree(p)
    case ProfileBeneficiaries(p, a) => SlashFree(p) && SlashFree(a)
    case AuthorisationSetupDetails(p, a) => SlashFree(p) && SlashFree(a)
    case TransferMultiple(a) => SlashFree(a)
    case PayMultiple(a) => SlashFree(a)
    case Documents(a) => SlashFree(a)
    case Document(a, t, d) => SlashFree(a) && SlashFree(t) && SlashFree(d)
    case _ => true
  }

  /** "/" + s1 + "/" + s2 + ...: a path given by its segments. */
  function Join(segments: seq<string>): string {
    if segments == [] then "" else "/" + segments[0] + Join(segments[1..])
  }

  /** The segments of each route's path. */
  function Segments(r: Route): seq<string> {
    var root := ["za", "pb", "v1"];
    match r
    case Accounts => root + ["accounts"]
    case Balance(a) => root + ["accounts", a, "balance"]
    case Transactions(a) => root + ["accounts", a, "transactions"]
    case PendingTransactions(a) => root + ["accounts", a, "pending-transactions"]
    case Profiles => root + ["profiles"]
    case ProfileAccounts(p) => root + ["profiles", p, "accounts"]
    case Beneficiaries => root + ["accounts", "beneficiaries"]
    case BeneficiaryCategories => root + ["accounts", "beneficiarycategories"]
    case ProfileBeneficiaries(p, a) => root + ["profiles", p, "accounts", a, "beneficiaries"]
    case AuthorisationSetupDetails(p, a) => root + ["profiles", p, "accounts", a, "authorisationsetupdetails"]
    case TransferMultiple(a) => root + ["accounts", a, "transfermultiple"]
    case PayMultiple(a) => root + ["accounts", a, "paymultiple"]
    case Documents(a) => root + ["accounts", a, "documents"]
    case Document(a, t, d) => root + ["accounts", a, "document", t, d]
  }

  /**
   * The path of a route: its segments joined with '/', which is what each
   * f-string template spells out (`/za/pb/v1/accounts/{accountId}/balance`
   * is the join of za, pb, v1, accounts, the account id and balance).
   */
  function Path(r: Route): string {
    Join(Segments(r))
  }

  lemma JoinStartsWithSlash(segments: seq<string>)
    ensures Join(segments) == [] || Join(segments)[0] == '/'
  {
  }

  /**
   * Pulling the first segment off two joined paths: segments without '/'
   * followed by something empty or starting with '/' split in one way only.
   */
  lemma FirstSegment(a: string, ra: string, b: string, rb: string)
    requires SlashFree(a) && SlashFree(b)
    requires ra == [] || ra[0] == '/'
    requires rb == [] || rb[0] == '/'
    requires a + ra == b + rb
    ensures a == b && ra == rb
  {
    assert a == (a + ra)[..|a|] && b == (b + rb)[..|b|];
    assert ra == (a + ra)[|a|..] && rb == (b + rb)[|b|..];
  }

  /** Joining slash-free segments is injective. */
  lemma {:induction false} JoinInjective(x: seq<string>, y: seq<string>)
    requires forall s :: s in x ==> SlashFree(s)
    requires forall s :: s in y ==> SlashFree(s)
    requires Join(x) == Join(y)
    ensures x == y
    decreases |x|
  {
    if x != [] && y != [] {
      JoinStartsWithSlash(x[1..]);
      JoinStartsWithSlash(y[1..]);
      assert Join(x) == "/" + (x[0] + Join(x[1..]));
      assert Join(y) == "/" + (y[0] + Join(y[1..]));
      assert x[0] + Join(x[1..]) == y[0] + Join(y[1..]) by {
        assert Join(x)[1..] == x[0] + Join(x[1..]);
        assert Join(y)[1..] == y[0] + Join(y[1..]);
      }
      FirstSegment(x[0], Join(x[1..]), y[0], Join(y[1..]));
      JoinInjective(x[1..], y[1..]);
      assert x == [x[0]] + x[1..] && y == [y[0]] + y[1..];
    }
  }

  lemma SegmentsSlashFree(r: Route)
    requires IdsSlashFree(r)
    ensures forall s :: s in Segments(r) ==> SlashFree(s)
  {
    ConstantsSlashFree();
  }

  lemma SegmentsInjective(r1: Route, r2: Route)
    requires Segments(r1) == Segments(r2)
    ensures r1 == r2
  {
    var s1, s2 := Segments(r1), Segments(r2);
    assert |s1| == |s2|;
    assert s1[3] == s2[3];
    if |s1| > 4 {
      assert s1[4] == s2[4];
    }
    if |s1| > 5 {
      assert s1[5] == s2[5];
    }
    if |s1| > 6 {
      assert s1[6] == s2[6];
    }
    if |s1| > 7 {
      assert s1[7] == s2[7];
    }
  }

  /**
   * With slash-free identifiers, distinct routes have distinct path strings,
   * and the route and its identifiers can be read back from the string.
   */
  lemma PathInjective(r1: Route, r2: Route)
    requires IdsSlashFree(r1) && IdsSlashFree(r2)
    requires Path(r1) == Path(r2)
    ensures r1 == r2
  {
    SegmentsSlashFree(r1);
    SegmentsSlashFree(r2);
    JoinInjective(Segments(r1), Segments(r2));
    SegmentsInjective(r1, r2);
  }

  // ------------------------------------------------------------ templates

  lemma {:induction false} JoinAppend(x: seq<string>, y: seq<string>)
    ensures Join(x + y) == Join(x) + Join(y)
  {
    if x == [] {
      assert x + y == y;
    } else {
      assert (x + y)[1..] == x[1..] + y;
      JoinAppend(x[1..], y);
    }
  }

  lemma JoinCons(s: string, rest: seq<string>)
    ensures Join([s] + rest) == "/" + s + Join(rest)
  {
    assert ([s] + rest)[1..] == rest;
  }

  lemma Join2(x: string, y: string)
    ensures Join([x, y]) == "/" + x + "/" + y
  {
    assert [x, y] == [x] + [y];
    JoinCons(x, [y]);
    JoinCons(y, []);
  }

  lemma Join3(x: string, y: string, z: string)
    ensures Join([x, y, z]) == "/" + x + "/" + y + "/" + z
  {
    assert [x, y, z] == [x] + [y, z];
    JoinCons(x, [y, z]);
    Join2(y, z);
  }

  lemma Join5(x: string, y: string, z: string, u: string, v: string)
    ensures Join([x, y, z, u, v]) == "/" + x + "/" + y + "/" + z + "/" + u + "/" + v
  {
    assert [x, y, z, u, v] == [x, y, z] + [u, v];
    JoinAppend([x, y, z], [u, v]);
    Join3(x, y, z);
    Join2(u, v);
  }

  /** Every path starts with `/za/pb/v1`. */
  lemma UnderRoot(rest: seq<string>)
    ensures Join(["za", "pb", "v1"] + rest) == "/za/pb/v1" + Join(rest)
  {
    JoinAppend(["za", "pb", "v1"], rest);
  }

  lemma RootLeaf(leaf: string)
    ensures Join(["za", "pb", "v1"] + [leaf]) == "/za/pb/v1/" + leaf
  {
    UnderRoot([leaf]);
    JoinCons(leaf, []);
  }

  lemma AccountsLeaf(leaf: string)
    ensures Join(["za", "pb", "v1"] + ["accounts", leaf]) == "/za/pb/v1/accounts/" + leaf
  {
    UnderRoot(["accounts", leaf]);
    Join2("accounts", leaf);
  }

  lemma AccountLeaf(a: string, leaf: string)
    ensures Join(["za", "pb", "v1"] + ["accounts", a, leaf]) == "/za/pb/v1/accounts/" + a + "/" + leaf
  {
    UnderRoot(["accounts", a, leaf]);
    Join3("accounts", a, leaf);
  }

  lemma ProfileAccountLeaf(p: string, a: string, leaf: string)
    ensures Join(["za", "pb", "v1"] + ["profiles", p, "accounts", a, leaf]) ==
      "/za/pb/v1/profiles/" + p + "/accounts/" + a + "/" + leaf
  {
    UnderRoot(["profiles", p, "accounts", a, leaf]);
    Join5("profiles", p, "accounts", a, leaf);
  }

  // The literal templates are first proved about the joined segments and
  // only then restated for `Path`, which keeps each proof small.

  lemma ListingJoins()
    ensures Join(["za", "pb", "v1"] + ["accounts"]) == "/za/pb/v1/accounts"
    ensures Join(["za", "pb", "v1"] + ["profiles"]) == "/za/pb/v1/profiles"
  {
    RootLeaf("accounts");
    RootLeaf("profiles");
  }

  lemma BeneficiaryJoins()
    ensures Join(["za", "pb", "v1"] + ["accounts", "beneficiaries"]) == "/za/pb/v1/accounts/beneficiaries"
    ensures Join(["za", "pb", "v1"] + ["accounts", "beneficiarycategories"]) ==
      "/za/pb/v1/accounts/beneficiarycategories"
  {
    AccountsLeaf("beneficiaries");
    AccountsLeaf("beneficiarycategories");
  }

  lemma AccountJoins(a: string)
    ensures Join(["za", "pb", "v1"] + ["accounts", a, "balance"]) == "/za/pb/v1/accounts/" + a + "/balance"
    ensures Join(["za", "pb", "v1"] + ["accounts", a, "transactions"]) == "/za/pb/v1/accounts/" + a + "/transactions"
    ensures Join(["za", "pb", "v1"] + ["accounts", a, "pending-transactions"]) ==
      "/za/pb/v1/accounts/" + a + "/pending-transactions"
    ensures Join(["za", "pb", "v1"] + ["accounts", a, "transfermultiple"]) ==
      "/za/pb/v1/accounts/" + a + "/transfermultiple"
    ensures Join(["za", "pb", "v1"] + ["accounts", a, "paymultiple"]) == "/za/pb/v1/accounts/" + a + "/paymultiple"
    ensures Join(["za", "pb", "v1"] + ["accounts", a, "documents"]) == "/za/pb/v1/accounts/" + a + "/documents"
  {
    AccountLeaf(a, "balance");
    AccountLeaf(a, "transactions");
    AccountLeaf(a, "pending-transactions");
    AccountLeaf(a, "transfermultiple");
    AccountLeaf(a, "paymultiple");
    AccountLeaf(a, "documents");
  }

  lemma ProfileJoins(p: string, a: string)
    ensures Join(["za", "pb", "v1"] + ["profiles", p, "accounts"]) == "/za/pb/v1/profiles/" + p + "/accounts"
    ensures Join(["za", "pb", "v1"] + ["profiles", p, "accounts", a, "beneficiaries"]) ==
      "/za/pb/v1/profiles/" + p + "/accounts/" + a + "/beneficiaries"
    ensures Join(["za", "pb", "v1"] + ["profiles", p, "accounts", a, "authorisationsetupdetails"]) ==
      "/za/pb/v1/profiles/" + p + "/accounts/" + a + "/authorisationsetupdetails"
  {
    UnderRoot(["profiles", p, "accounts"]);
    Join3("profiles", p, "accounts");
    ProfileAccountLeaf(p, a, "beneficiaries");
    ProfileAccountLeaf(p, a, "authorisationsetupdetails");
  }

  lemma DocumentJoin(a: string, t: string, d: string)
    ensures Join(["za", "pb", "v1"] + ["accounts", a, "document", t, d]) ==
      "/za/pb/v1/accounts/" + a + "/document/" + t + "/" + d
  {
    var prefix := ["za", "pb", "v1"] + ["accounts", a, "document"];
    assert ["za", "pb", "v1"] + ["accounts", a, "document", t, d] == prefix + [t, d];
    JoinAppend(prefix, [t, d]);
    AccountLeaf(a, "document");
    Join2(t, d);
  }

  /** The four routes without identifiers have the literal paths of their tools. */
  lemma FixedPathTemplates()
    ensures Path(Accounts) == "/za/pb/v1/accounts"
    ensures Path(Profiles) == "/za/pb/v1/profiles"
    ensures Path(Beneficiaries) == "/za/pb/v1/accounts/beneficiaries"
    ensures Path(BeneficiaryCategories) == "/za/pb/v1/accounts/beneficiarycategories"
  {
    ListingJoins();
    BeneficiaryJoins();
  }

  /** The routes under one account have the f-string templates of their tools. */
  lemma AccountPathTemplates(a: string)
    ensures Path(Balance(a)) == "/za/pb/v1/accounts/" + a + "/balance"
    ensures Path(Transactions(a)) == "/za/pb/v1/accounts/" + a + "/transactions"
    ensures Path(PendingTransactions(a)) == "/za/pb/v1/accounts/" + a + "/pending-transactions"
    ensures Path(TransferMultiple(a)) == "/za/pb/v1/accounts/" + a + "/transfermultiple"
    ensures Path(PayMultiple(a)) == "/za/pb/v1/accounts/" + a + "/paymultiple"
    ensures Path(Documents(a)) == "/za/pb/v1/accounts/" + a + "/documents"
  {
    AccountJoins(a);
  }

  /** The routes under one profile have the f-string templates of their tools. */
  lemma ProfilePathTemplates(p: string, a: string)
    ensures Path(ProfileAccounts(p)) == "/za/pb/v1/profiles/" + p + "/accounts"
    ensures Path(ProfileBeneficiaries(p, a)) == "/za/pb/v1/profiles/" + p + "/accounts/" + a + "/beneficiaries"
    ensures Path(AuthorisationSetupDetails(p, a)) ==
      "/za/pb/v1/profiles/" + p + "/accounts/" + a + "/authorisationsetupdetails"
  {
    ProfileJoins(p, a);
  }

  /** A single document has its template with the account, the type and the date in place. */
  lemma DocumentPathTemplate(a: string, t: string, d: string)
    ensures Path(Document(a, t, d)) == "/za/pb/v1/accounts/" + a + "/document/" + t + "/" + d
  {
    DocumentJoin(a, t, d);
  }

  /**
   * Without that condition two tools can address the same URL: the balance
   * of the account id `a/document/t` is the document of account `a`, type
   * `t` and date "balance".
   */
  lemma PathCollision(a: string, t: string)
    ensures Path(Balance(a + "/document/" + t)) == Path(Document(a, t, "balance"))
  {
    AccountPathTemplates(a + "/document/" + t);
    DocumentPathTemplate(a, t, "balance");
  }
}
