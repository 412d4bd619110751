/** Proof verification (verify.go): a bounded recursion over four kinds of proof, and what
    its success means. Signatures, hashing, JSON, URI parsing and the resolver are
    functions of a context. */
module Verify {
  import opened Wrappers

  type Uri = string
  type Text = string
  type Address = string

  datatype ProofKind = Ecrecover | Subkey | DocumentReference | DocumentDirect | NoProof | Unknown

  datatype Proof = Proof(kind: ProofKind, signature: Option<string>, href: Option<Uri>, key: Option<Uri>,
    document: Option<Text>, proof: Option<Proof>)

  datatype SignedDocument = SignedDocument(document: Text, proof: Proof, references: map<Uri, SignedDocument>)

  datatype Schema = SubkeySchema | RevokedSubkeySchema | ReferenceSchema | OtherSchema(url: string)

  datatype Kind = AckKind | UnackKind | AckedKind | UnackedKind | EntityKind | AssociationKind | OtherKind(name: string)

  /** A decoded document. The last three fields are its value read as a subkey, as a
      signed document and as a reference, where it can be read so. */
  datatype Doc = Doc(kind: Kind, key: Uri, author: Address, schema: Schema, createdAt: int, associate: Option<Uri>,
    ckid: Option<Address>, enact: Option<SignedDocument>, href: Option<Uri>)

  datatype Ccuri = Ccuri(scheme: string, owner: string, key: string, form: string, cdid: string)

  datatype Context = Context(
    parse: Text -> Option<Doc>,
    render: Doc -> Text,
    signed: (Text, string, Address) -> bool,
    documentId: (Text, int) -> string,
    parseUri: Uri -> Option<Ccuri>,
    resolver: Option<Uri -> Option<SignedDocument>>)

  const MAX_DEPTH: nat := 4

  type Allowed = Option<set<ProofKind>>

  predicate Admits(allowed: Allowed, kind: ProofKind) {
    allowed.Some? ==> kind in allowed.value
  }

  function Fetch(c: Context, uri: Uri): Option<SignedDocument> {
    if c.resolver.None? then None else c.resolver.value(uri)
  }

  /** An inlined reference goes before the resolver. */
  function Resolve(c: Context, sd: SignedDocument, uri: Uri): Option<SignedDocument> {
    if uri in sd.references then Some(sd.references[uri]) else Fetch(c, uri)
  }

  /** The document's signature is by this address. */
  predicate SignedBy(c: Context, sd: SignedDocument, who: Address) {
    sd.proof.signature.Some? && c.signed(sd.document, sd.proof.signature.value, who)
  }

  /** A reference's href identifies the document it was resolved to. */
  predicate HrefMatches(c: Context, href: Uri, target: SignedDocument, doc: Doc) {
    var parsed := c.parseUri(href);
    if parsed.None? then false
    else
      var uri := parsed.value;
      if uri.scheme == "cckv" && uri.key != "" then
        var key := c.parseUri(doc.key);
        key.Some? && key.value.scheme == "cckv" && key.value.key != "" && key.value.owner == uri.owner && key.value.key == uri.key
      else if uri.scheme == "cckv" then
        doc.kind.EntityKind? && doc.author == uri.owner
      else if uri.scheme == "ccfs" && uri.form == "concrnt" then
        c.documentId(target.document, doc.createdAt) == uri.cdid && HolderIs(c, doc, uri.owner)
      else false
  }

  /** The document is held by the key's owner, else the associate's owner, else the author. */
  predicate HolderIs(c: Context, doc: Doc, owner: string) {
    if doc.key != "" then c.parseUri(doc.key).Some? && c.parseUri(doc.key).value.owner == owner
    else if doc.kind.AssociationKind? && doc.associate.Some? then
      c.parseUri(doc.associate.value).Some? && c.parseUri(doc.associate.value).value.owner == owner
    else doc.author == owner
  }

  /** The document with its kind turned from ack to acked. */
  function AckedForm(doc: Doc): Doc {
    doc.(kind := if doc.kind.AckKind? then AckedKind else UnackedKind)
  }

  /** DeriveAcked: the ack with its kind replaced, re-rendered. */
  function DeriveAcked(c: Context, sd: SignedDocument): Option<Text> {
    match c.parse(sd.document)
    case None => None
    case Some(doc) => if doc.kind.AckKind? || doc.kind.UnackKind? then Some(c.render(AckedForm(doc))) else None
  }

  function Embedded(sd: SignedDocument): SignedDocument
    requires sd.proof.document.Some? && sd.proof.proof.Some?
  {
    SignedDocument(sd.proof.document.value, sd.proof.proof.value, map[])
  }

  const MASTER_ONLY: Allowed := Some({Ecrecover})

  /** verify. */
  predicate Verifies(c: Context, sd: SignedDocument, depth: nat, allowed: Allowed)
    decreases depth
  {
    depth > 0 && Admits(allowed, sd.proof.kind) && c.parse(sd.document).Some? &&
    var doc := c.parse(sd.document).value;
    match sd.proof.kind
    case Ecrecover => SignedBy(c, sd, doc.author)
    case Subkey => VerifiesSubkey(c, sd, doc, depth)
    case DocumentReference =>
      && sd.proof.href.Some?
      && doc.schema.ReferenceSchema?
      && doc.href == sd.proof.href
      && var target := Resolve(c, sd, sd.proof.href.value);
      && target.Some?
      && Verifies(c, target.value, depth - 1, None)
      && var targetDoc := c.parse(target.value.document);
      && targetDoc.Some?
      && targetDoc.value.author == doc.author
      && HrefMatches(c, sd.proof.href.value, target.value, targetDoc.value)
    case DocumentDirect =>
      && sd.proof.document.Some? && sd.proof.proof.Some?
      && Verifies(c, Embedded(sd), depth - 1, Some({Ecrecover, Subkey}))
      && (doc.kind.AckedKind? || doc.kind.UnackedKind?)
      && DeriveAcked(c, Embedded(sd)) == Some(sd.document)
    case NoProof => false
    case Unknown => false
  }

  predicate VerifiesSubkey(c: Context, sd: SignedDocument, doc: Doc, depth: nat)
    requires depth > 0
    decreases depth, 0
  {
    && sd.proof.signature.Some? && sd.proof.key.Some?
    && var resolved := Fetch(c, sd.proof.key.value);
    && resolved.Some?
    && Verifies(c, resolved.value, depth - 1, MASTER_ONLY)
    && c.parse(resolved.value.document).Some?
    && var keyDoc := c.parse(resolved.value.document).value;
    match keyDoc.schema
    case SubkeySchema => EnactAllows(c, sd, doc, keyDoc)
    case RevokedSubkeySchema =>
      && keyDoc.enact.Some?
      && keyDoc.author == doc.author
      && Verifies(c, keyDoc.enact.value, depth - 1, MASTER_ONLY)
      && var enactDoc := c.parse(keyDoc.enact.value.document);
      && enactDoc.Some?
      && enactDoc.value.schema.SubkeySchema?
      && doc.createdAt <= keyDoc.createdAt
      && EnactAllows(c, sd, doc, enactDoc.value)
    case _ => false
  }

  /** The enact document is the author's, was there first, and names the signing key. */
  predicate EnactAllows(c: Context, sd: SignedDocument, doc: Doc, enact: Doc) {
    enact.ckid.Some? && enact.author == doc.author && enact.createdAt <= doc.createdAt && SignedBy(c, sd, enact.ckid.value)
  }

  // ---- What it means to be authorised ----

  /** The document carries a signature by its own author's key. */
  predicate MasterSigned(c: Context, sd: SignedDocument) {
    sd.proof.kind.Ecrecover? && c.parse(sd.document).Some? && SignedBy(c, sd, c.parse(sd.document).value.author)
  }

  /** A subkey enacted by this author at this instant, under a document the author signed. */
  predicate Enacts(c: Context, enact: SignedDocument, author: Address, at: int, key: Address) {
    && MasterSigned(c, enact)
    && var doc := c.parse(enact.document).value;
    doc.schema.SubkeySchema? && doc.author == author && doc.createdAt == at && doc.ckid == Some(key)
  }

  /** A revocation the author signed, of this enact document at this instant. */
  predicate Revokes(c: Context, revocation: SignedDocument, author: Address, at: int, enact: SignedDocument) {
    && MasterSigned(c, revocation)
    && var doc := c.parse(revocation.document).value;
    doc.schema.RevokedSubkeySchema? && doc.author == author && doc.createdAt == at && doc.enact == Some(enact)
  }

  /** The last document of a chain: signed by the author's key, or by a subkey whose
      enact document, and revocation if there is one, bracket the document's createdAt. */
  datatype Root =
    | ByMaster
    | ByLiveKey(enact: SignedDocument, since: int, key: Address)
    | ByRevokedKey(enact: SignedDocument, since: int, key: Address, revocation: SignedDocument, until: int)

  predicate Rooted(c: Context, sd: SignedDocument, root: Root) {
    c.parse(sd.document).Some? &&
    var doc := c.parse(sd.document).value;
    match root
    case ByMaster => MasterSigned(c, sd)
    case ByLiveKey(enact, since, key) =>
      && sd.proof.kind.Subkey? && sd.proof.key.Some? && Fetch(c, sd.proof.key.value) == Some(enact)
      && Enacts(c, enact, doc.author, since, key)
      && since <= doc.createdAt
      && SignedBy(c, sd, key)
    case ByRevokedKey(enact, since, key, revocation, until) =>
      && sd.proof.kind.Subkey? && sd.proof.key.Some? && Fetch(c, sd.proof.key.value) == Some(revocation)
      && Revokes(c, revocation, doc.author, until, enact)
      && Enacts(c, enact, doc.author, since, key)
      && since <= doc.createdAt <= until
      && SignedBy(c, sd, key)
  }

  /** One document vouches for the next: a reference for what it refers to, an acked
      document for the ack it is derived from. */
  predicate RefersTo(c: Context, sd: SignedDocument, target: SignedDocument) {
    && sd.proof.kind.DocumentReference?
    && sd.proof.href.Some?
    && Resolve(c, sd, sd.proof.href.value) == Some(target)
    && c.parse(sd.document).Some? && c.parse(target.document).Some?
    && var doc, targetDoc := c.parse(sd.document).value, c.parse(target.document).value;
    && doc.schema.ReferenceSchema? && doc.href == sd.proof.href
    && targetDoc.author == doc.author
    && HrefMatches(c, sd.proof.href.value, target, targetDoc)
  }

  predicate DerivedFrom(c: Context, sd: SignedDocument, ack: SignedDocument) {
    && sd.proof.kind.DocumentDirect?
    && sd.proof.document.Some? && sd.proof.proof.Some? && ack == Embedded(sd)
    && ack.proof.kind in {Ecrecover, Subkey}
    && c.parse(sd.document).Some?
    && c.parse(sd.document).value.kind in {AckedKind, UnackedKind}
    && DeriveAcked(c, ack) == Some(sd.document)
  }

  predicate Link(c: Context, a: SignedDocument, b: SignedDocument) {
    RefersTo(c, a, b) || DerivedFrom(c, a, b)
  }

  /** A chain of documents from the one presented to a rooted one. */
  predicate Chain(c: Context, docs: seq<SignedDocument>, root: Root) {
    && docs != []
    && (forall k :: 0 <= k < |docs| - 1 ==> Link(c, docs[k], docs[k + 1]))
    && Rooted(c, docs[|docs| - 1], root)
  }

  /** Verification steps the chain takes: one a document, and one for a subkey's key. */
  function Cost(docs: seq<SignedDocument>, root: Root): nat {
    |docs| + if root.ByMaster? then 0 else 1
  }

  // ---- Success is exactly a chain within the budget ----

  lemma MasterVerifies(c: Context, sd: SignedDocument, depth: nat)
    ensures Verifies(c, sd, depth, MASTER_ONLY) <==> depth > 0 && MasterSigned(c, sd)
  {
  }

  lemma RootOfSubkey(c: Context, sd: SignedDocument, depth: nat) returns (root: Root)
    requires c.parse(sd.document).Some? && sd.proof.kind.Subkey? && depth > 0
    requires VerifiesSubkey(c, sd, c.parse(sd.document).value, depth)
    ensures depth > 1 && !root.ByMaster? && Rooted(c, sd, root)
  {
    var resolved := Fetch(c, sd.proof.key.value).value;
    MasterVerifies(c, resolved, depth - 1);
    var keyDoc := c.parse(resolved.document).value;
    if keyDoc.schema.SubkeySchema? {
      root := ByLiveKey(resolved, keyDoc.createdAt, keyDoc.ckid.value);
    } else {
      var enact := keyDoc.enact.value;
      MasterVerifies(c, enact, depth - 1);
      var enactDoc := c.parse(enact.document).value;
      root := ByRevokedKey(enact, enactDoc.createdAt, enactDoc.ckid.value, resolved, keyDoc.createdAt);
    }
  }

  lemma SubkeyOfRoot(c: Context, sd: SignedDocument, root: Root, depth: nat)
    requires !root.ByMaster? && Rooted(c, sd, root) && depth > 1
    ensures VerifiesSubkey(c, sd, c.parse(sd.document).value, depth)
  {
    MasterVerifies(c, root.enact, depth - 1);
    if root.ByRevokedKey? { MasterVerifies(c, root.revocation, depth - 1); }
  }

  /** Soundness: success comes with a chain within the budget. */
  lemma {:induction false} ChainOf(c: Context, sd: SignedDocument, depth: nat, allowed: Allowed)
    returns (docs: seq<SignedDocument>, root: Root)
    requires Verifies(c, sd, depth, allowed)
    ensures Chain(c, docs, root) && docs[0] == sd && Cost(docs, root) <= depth
    decreases depth
  {
    match sd.proof.kind
    case Ecrecover => docs, root := [sd], ByMaster;
    case Subkey =>
      root := RootOfSubkey(c, sd, depth);
      docs := [sd];
    case DocumentReference =>
      var target := Resolve(c, sd, sd.proof.href.value).value;
      var rest;
      rest, root := ChainOf(c, target, depth - 1, None);
      docs := [sd] + rest;
      Extend(c, sd, rest, root);
    case DocumentDirect =>
      var rest;
      rest, root := ChainOf(c, Embedded(sd), depth - 1, Some({Ecrecover, Subkey}));
      docs := [sd] + rest;
      Extend(c, sd, rest, root);
  }

  lemma Extend(c: Context, sd: SignedDocument, rest: seq<SignedDocument>, root: Root)
    requires Chain(c, rest, root) && Link(c, sd, rest[0])
    ensures Chain(c, [sd] + rest, root)
  {
    var docs := [sd] + rest;
    forall k | 0 <= k < |docs| - 1 ensures Link(c, docs[k], docs[k + 1]) {
      if k > 0 {
        assert docs[k] == rest[k - 1] && docs[k + 1] == rest[k];
      }
    }
  }

  /** Completeness: a chain within the budget makes verification succeed. */
  lemma {:induction false} OfChain(c: Context, docs: seq<SignedDocument>, root: Root, depth: nat, allowed: Allowed)
    requires Chain(c, docs, root) && Cost(docs, root) <= depth && Admits(allowed, docs[0].proof.kind)
    ensures Verifies(c, docs[0], depth, allowed)
    decreases |docs|
  {
    if |docs| == 1 {
      if !root.ByMaster? { SubkeyOfRoot(c, docs[0], root, depth); }
    } else {
      var rest := docs[1..];
      assert Chain(c, rest, root) by {
        forall k | 0 <= k < |rest| - 1 ensures Link(c, rest[k], rest[k + 1]) {
          assert rest[k] == docs[k + 1] && rest[k + 1] == docs[k + 2];
        }
      }
      OfChain(c, rest, root, depth - 1, if docs[0].proof.kind.DocumentReference? then None else Some({Ecrecover, Subkey}));
    }
  }

  /** A document verifies exactly when a chain within the budget leads from it to a rooted
      document and its proof kind is among the allowed ones. */
  lemma VerifiesIffChain(c: Context, sd: SignedDocument, depth: nat, allowed: Allowed)
    ensures Verifies(c, sd, depth, allowed) <==>
      Admits(allowed, sd.proof.kind) && exists docs, root :: Chain(c, docs, root) && docs[0] == sd && Cost(docs, root) <= depth
  {
    if Verifies(c, sd, depth, allowed) {
      var docs, root := ChainOf(c, sd, depth, allowed);
    }
    if docs, root :| Admits(allowed, sd.proof.kind) && Chain(c, docs, root) && docs[0] == sd && Cost(docs, root) <= depth {
      OfChain(c, docs, root, depth, allowed);
    }
  }

  /** A larger budget never turns success into failure. */
  lemma Monotone(c: Context, sd: SignedDocument, depth: nat, more: nat, allowed: Allowed)
    requires Verifies(c, sd, depth, allowed) && depth <= more
    ensures Verifies(c, sd, more, allowed)
  {
    var docs, root := ChainOf(c, sd, depth, allowed);
    OfChain(c, docs, root, more, allowed);
  }

  // ---- What a chain says ----

  /** Where this text is an ack, parsing its re-rendered acked form gives that back. */
  predicate RendersBack(c: Context, text: Text) {
    c.parse(text).Some? && c.parse(text).value.kind in {AckKind, UnackKind} ==>
      c.parse(c.render(AckedForm(c.parse(text).value))) == Some(AckedForm(c.parse(text).value))
  }

  ghost predicate Faithful(c: Context) {
    forall text :: RendersBack(c, text)
  }

  function Author(c: Context, sd: SignedDocument): Option<Address> {
    if c.parse(sd.document).Some? then Some(c.parse(sd.document).value.author) else None
  }

  lemma LinkKeepsAuthor(c: Context, a: SignedDocument, b: SignedDocument)
    requires Faithful(c) && Link(c, a, b)
    ensures Author(c, a).Some? && Author(c, a) == Author(c, b)
  {
    if DerivedFrom(c, a, b) {
      assert RendersBack(c, b.document);
    }
  }

  lemma {:induction false} ChainKeepsAuthor(c: Context, docs: seq<SignedDocument>, root: Root, k: nat)
    requires Faithful(c) && Chain(c, docs, root) && k < |docs|
    ensures Author(c, docs[k]).Some? && Author(c, docs[k]) == Author(c, docs[0])
  {
    if k > 0 {
      ChainKeepsAuthor(c, docs, root, k - 1);
      LinkKeepsAuthor(c, docs[k - 1], docs[k]);
    } else if |docs| > 1 {
      LinkKeepsAuthor(c, docs[0], docs[1]);
    }
  }

  lemma LinkKind(c: Context, a: SignedDocument, b: SignedDocument)
    ensures Link(c, a, b) ==> a.proof.kind in {DocumentReference, DocumentDirect}
  {
  }

  /** A derived document can only stand right before the chain's end. */
  lemma DerivedIsNextToLast(c: Context, docs: seq<SignedDocument>, root: Root, k: nat)
    requires Chain(c, docs, root) && k < |docs| - 1 && DerivedFrom(c, docs[k], docs[k + 1])
    ensures k == |docs| - 2
  {
    if k < |docs| - 2 {
      LinkKind(c, docs[k + 1], docs[k + 2]);
    }
  }

  /** Soundness of Verify: at most four documents, all by the presented document's author,
      lead to one signed by the author's key, or (then at most three) by a subkey under
      the author's own signed enact and revocation documents that bracket its createdAt. */
  lemma Soundness(c: Context, sd: SignedDocument, allowed: Allowed) returns (docs: seq<SignedDocument>, root: Root)
    requires Faithful(c) && Verifies(c, sd, MAX_DEPTH, allowed)
    ensures Chain(c, docs, root) && docs[0] == sd
    ensures |docs| <= 4 && (!root.ByMaster? ==> |docs| <= 3)
    ensures Author(c, sd).Some? && forall k :: 0 <= k < |docs| ==> Author(c, docs[k]) == Author(c, sd)
    ensures forall k :: 0 <= k < |docs| - 2 ==> RefersTo(c, docs[k], docs[k + 1])
    ensures Rooted(c, docs[|docs| - 1], root)
  {
    docs, root := ChainOf(c, sd, MAX_DEPTH, allowed);
    forall k | 0 <= k < |docs| ensures Author(c, docs[k]).Some? && Author(c, docs[k]) == Author(c, sd) {
      ChainKeepsAuthor(c, docs, root, k);
    }
    forall k | 0 <= k < |docs| - 2 ensures RefersTo(c, docs[k], docs[k + 1]) {
      if DerivedFrom(c, docs[k], docs[k + 1]) { DerivedIsNextToLast(c, docs, root, k); }
    }
  }

  /** What the submitter inlines cannot change the verdict of any proof but a
      document-reference. */
  lemma InlinedCopiesIgnored(c: Context, sd: SignedDocument, references: map<Uri, SignedDocument>, depth: nat, allowed: Allowed)
    requires !sd.proof.kind.DocumentReference?
    ensures Verifies(c, sd.(references := references), depth, allowed) <==> Verifies(c, sd, depth, allowed)
  {
    var other := sd.(references := references);
    assert sd.proof.document.Some? && sd.proof.proof.Some? ==> Embedded(other) == Embedded(sd);
  }

  /** An unsigned or unknown proof never verifies, and a subkey never vouches for the
      document that enacts or revokes a subkey. */
  lemma Refusals(c: Context, sd: SignedDocument, depth: nat, allowed: Allowed)
    ensures sd.proof.kind in {NoProof, Unknown} ==> !Verifies(c, sd, depth, allowed)
    ensures sd.proof.kind.Subkey? ==> !Verifies(c, sd, depth, MASTER_ONLY)
  {
  }
}
