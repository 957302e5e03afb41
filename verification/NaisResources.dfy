/** Fasit resources as naisd sees them, and the names it derives from their entries. */
module NaisResources {

  import opened Text

  const ROOT_MOUNT_POINT := "/var/run/secrets/naisd.io/"

  datatype FasitIngress = FasitIngress(host: string, path: string)

  datatype Scope = Scope(environmentClass: string, environment: string, zone: string)

  /** Contents of secrets and certificates are Go byte strings, modelled as sequences of characters. */
  datatype NaisResource = NaisResource(
    id: int,
    name: string,
    resourceType: string,
    scope: Scope,
    properties: map<string, string>,
    propertyMap: map<string, string>,
    secret: map<string, string>,
    certificates: map<string, string>,
    ingresses: seq<FasitIngress>)
  {
    function ToResourceVariable(property: string): string {
      var variable :=
        if property in propertyMap then propertyMap[property]
        else if resourceType != "applicationproperties" then name + "_" + property
        else property;
      ToLower(NormalizePropertyName(variable))
    }

    function ToEnvironmentVariable(property: string): string {
      ToUpper(ToResourceVariable(property))
    }

    function MountPoint(property: string): string {
      ROOT_MOUNT_POINT + ToResourceVariable(property)
    }
  }

  function NormalizePropertyName(name: string): string {
    ReplaceChar(ReplaceChar(ReplaceChar(name, '.', '_'), ':', '_'), '-', '_')
  }

  // ---- The entries of a list of resources ----

  datatype EntryKind = Property | Secret | Certificate

  /** One entry of one resource: the origin of one environment variable. */
  datatype Entry = Entry(resource: nat, kind: EntryKind, key: string)

  function Entries(r: NaisResource, kind: EntryKind): map<string, string> {
    match kind
    case Property => r.properties
    case Secret => r.secret
    case Certificate => r.certificates
  }

  predicate IsEntry(rs: seq<NaisResource>, e: Entry) {
    e.resource < |rs| && e.key in Entries(rs[e.resource], e.kind)
  }

  /** The secret key, the volume path, or the variable name in lower case. */
  function Reference(rs: seq<NaisResource>, e: Entry): string
    requires IsEntry(rs, e)
  {
    rs[e.resource].ToResourceVariable(e.key)
  }

  function VariableName(rs: seq<NaisResource>, e: Entry): string
    requires IsEntry(rs, e)
  {
    ToUpper(Reference(rs, e))
  }

  function Value(rs: seq<NaisResource>, e: Entry): string
    requires IsEntry(rs, e)
  {
    Entries(rs[e.resource], e.kind)[e.key]
  }

  /** Equal variable names and equal references are the same thing, so one check serves both. */
  lemma NamesAndReferencesAgree(rs: seq<NaisResource>, a: Entry, b: Entry)
    requires IsEntry(rs, a) && IsEntry(rs, b)
    ensures VariableName(rs, a) == VariableName(rs, b) <==> Reference(rs, a) == Reference(rs, b)
  {
    var ra, rb := rs[a.resource], rs[b.resource];
    var x := NormalizePropertyName(
      if a.key in ra.propertyMap then ra.propertyMap[a.key]
      else if ra.resourceType != "applicationproperties" then ra.name + "_" + a.key else a.key);
    var y := NormalizePropertyName(
      if b.key in rb.propertyMap then rb.propertyMap[b.key]
      else if rb.resourceType != "applicationproperties" then rb.name + "_" + b.key else b.key);
    LowerOfUpper(x);
    LowerOfUpper(y);
  }

  /** The text in lower case, with underscores for dots, colons and dashes. */
  predicate IsSpelling(reference: string, raw: string) {
    && |reference| == |raw|
    && forall i :: 0 <= i < |raw| ==>
         reference[i] == if raw[i] == '.' || raw[i] == ':' || raw[i] == '-' then '_'
                         else if 'A' <= raw[i] <= 'Z' then raw[i] - 'A' + 'a' else raw[i]
  }

  /** A reference spells the name the manifest gives the property, or else the property itself in application
      properties, or else the property behind the name of its resource. */
  lemma ReferenceSpelled(rs: seq<NaisResource>, e: Entry)
    requires IsEntry(rs, e)
    ensures var r := rs[e.resource];
            IsSpelling(Reference(rs, e),
                       if e.key in r.propertyMap then r.propertyMap[e.key]
                       else if r.resourceType == "applicationproperties" then e.key
                       else r.name + "_" + e.key)
  {
  }

  /** A variable is called as its reference, in upper case. */
  lemma VariableNameSpelled(rs: seq<NaisResource>, e: Entry)
    requires IsEntry(rs, e)
    ensures var name, reference := VariableName(rs, e), Reference(rs, e);
            && |name| == |reference|
            && forall i :: 0 <= i < |name| ==>
                 name[i] == if 'a' <= reference[i] <= 'z' then reference[i] - 'a' + 'A' else reference[i]
  {
  }
}
