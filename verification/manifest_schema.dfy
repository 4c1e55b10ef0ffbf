/** The parsed form of a YAML or JSON document. */
module Json {
  datatype Json =
    | JNull
    | JBool(b: bool)
    | JNumber(n: real)
    | JString(str: string)
    | JArray(items: seq<Json>)
    | JObject(fields: map<string, Json>)
}

/**
 * The root-manifest schemas (`dochubYamlDependencies`, `dochubYamlStructure`,
 * `dochubYaml`) and the part of JSON Schema draft-07 they use: `type`
 * (section 6.1.1 of the validation vocabulary), `pattern` (6.3.3), `required`
 * (6.5.3), `properties` (6.5.4), `patternProperties` (6.5.5) and
 * `additionalProperties` (6.5.6). `title` is an annotation and is dropped.
 */
module ManifestSchema {
  import opened Common
  import opened Strings
  import opened Json
  import opened ManifestPatterns

  datatype SchemaType = ObjectType | StringType

  datatype Schema = Schema(
    typ: SchemaType,
    pattern: Option<Pattern>,
    properties: seq<Property>,
    patternProperties: seq<PatternProperty>,
    additionalProperties: bool,   // `false` forbids keys matched by neither of the two above
    required: seq<string>)

  datatype Property = Property(name: string, schema: Schema)

  datatype PatternProperty = PatternProperty(pattern: Pattern, schema: Schema)

  /** `key` is named by `properties` or matched by a `patternProperties` pattern. */
  predicate Covered(s: Schema, key: string)
  {
    || (exists i :: 0 <= i < |s.properties| && s.properties[i].name == key)
    || (exists i :: 0 <= i < |s.patternProperties| && Matches(s.patternProperties[i].pattern, key))
  }

  /** Draft-07 validation of an instance against a schema of the subset above. */
  predicate Validate(s: Schema, j: Json)
    decreases s
  {
    && (match s.typ
        case ObjectType => j.JObject?
        case StringType => j.JString?)
    && (j.JString? && s.pattern.Some? ==> Matches(s.pattern.value, j.str))
    && (j.JObject? ==>
          && (forall i :: 0 <= i < |s.properties| && s.properties[i].name in j.fields ==>
                Validate(s.properties[i].schema, j.fields[s.properties[i].name]))
          && (forall i, k ::
                (0 <= i < |s.patternProperties| && k in j.fields && Matches(s.patternProperties[i].pattern, k)) ==>
                Validate(s.patternProperties[i].schema, j.fields[k]))
          && (!s.additionalProperties ==> forall k :: k in j.fields ==> Covered(s, k))
          && (forall i :: 0 <= i < |s.required| ==> s.required[i] in j.fields))
  }

  function StringSchema(pattern: Option<Pattern>): Schema
  {
    Schema(StringType, pattern, [], [], true, [])
  }

  /** `dochubYamlDependencies` */
  const DependenciesSchema: Schema :=
    Schema(ObjectType, None, [],
      [PatternProperty(PackageId, StringSchema(Some(PackageRequest)))],
      false, [])

  /** One entry of `dochubYamlStructure`. */
  const SpaceSchema: Schema :=
    Schema(ObjectType, None,
      [Property("title", StringSchema(None)),
       Property("location", StringSchema(Some(PackageStructSpace)))],
      [], true, ["title", "location"])

  /** `dochubYamlStructure` */
  const StructureSchema: Schema :=
    Schema(ObjectType, None, [], [PatternProperty(PackageStructPattern, SpaceSchema)], false, [])

  /** One declared package under `$package`. */
  const PackageSchema: Schema :=
    Schema(ObjectType, None,
      [Property("version", StringSchema(Some(PackageVer))),
       Property("name", StringSchema(Some(PackageName))),
       Property("description", StringSchema(Some(PackageDescription))),
       Property("dependencies", DependenciesSchema),
       Property("structure", StructureSchema)],
      [], true, ["version", "name", "description"])

  /** The `$package` object. */
  const PackagesSchema: Schema :=
    Schema(ObjectType, None, [], [PatternProperty(PackageId, PackageSchema)], false, [])

  /** `dochubYaml` */
  const DochubYamlSchema: Schema :=
    Schema(ObjectType, None, [Property("$package", PackagesSchema)], [], true, ["$package"])

  // ---------------------------------------------------------------------------
  // The same conditions written out directly.

  predicate IsStringWhere(j: Json, p: Pattern)
  {
    j.JString? && Matches(p, j.str)
  }

  predicate DependenciesOk(d: Json)
  {
    d.JObject? && forall k :: k in d.fields ==> IsPackageId(k) && IsStringWhere(d.fields[k], PackageRequest)
  }

  predicate SpaceOk(e: Json)
  {
    && e.JObject?
    && "title" in e.fields && e.fields["title"].JString?
    && "location" in e.fields && IsStringWhere(e.fields["location"], PackageStructSpace)
  }

  predicate StructureOk(d: Json)
  {
    d.JObject? && forall k :: k in d.fields ==> IsStructKey(k) && SpaceOk(d.fields[k])
  }

  predicate PackageOk(e: Json)
  {
    && e.JObject?
    && "version" in e.fields && IsStringWhere(e.fields["version"], PackageVer)
    && "name" in e.fields && IsStringWhere(e.fields["name"], PackageName)
    && "description" in e.fields && IsStringWhere(e.fields["description"], PackageDescription)
    && ("dependencies" in e.fields ==> DependenciesOk(e.fields["dependencies"]))
    && ("structure" in e.fields ==> StructureOk(e.fields["structure"]))
  }

  predicate PackagesOk(p: Json)
  {
    p.JObject? && forall k :: k in p.fields ==> IsPackageId(k) && PackageOk(p.fields[k])
  }

  /** A root manifest: an object with a `$package` entry; other root keys are free. */
  predicate ManifestOk(j: Json)
  {
    j.JObject? && "$package" in j.fields && PackagesOk(j.fields["$package"])
  }

  // ---------------------------------------------------------------------------
  // The interpreter on the schemas agrees with the direct conditions.

  lemma StringSchemaMeaning(p: Pattern, j: Json)
    ensures Validate(StringSchema(Some(p)), j) <==> IsStringWhere(j, p)
  {
  }

  lemma DependenciesMeaning(d: Json)
    ensures Validate(DependenciesSchema, d) <==> DependenciesOk(d)
  {
    var pp := DependenciesSchema.patternProperties;
    if d.JObject? {
      if Validate(DependenciesSchema, d) {
        forall k | k in d.fields
          ensures IsPackageId(k) && IsStringWhere(d.fields[k], PackageRequest)
        {
          assert Covered(DependenciesSchema, k);
          assert Matches(pp[0].pattern, k);
          StringSchemaMeaning(PackageRequest, d.fields[k]);
        }
      }
      if DependenciesOk(d) {
        forall k | k in d.fields
          ensures Covered(DependenciesSchema, k)
        {
          assert Matches(pp[0].pattern, k);
        }
        forall i, k | 0 <= i < |pp| && k in d.fields && Matches(pp[i].pattern, k)
          ensures Validate(pp[i].schema, d.fields[k])
        {
          StringSchemaMeaning(PackageRequest, d.fields[k]);
        }
      }
    }
  }

  lemma SpaceMeaning(e: Json)
    ensures Validate(SpaceSchema, e) <==> SpaceOk(e)
  {
    var ps := SpaceSchema.properties;
    if e.JObject? {
      if Validate(SpaceSchema, e) {
        assert SpaceSchema.required[0] in e.fields;
        assert SpaceSchema.required[1] in e.fields;
        assert Validate(ps[0].schema, e.fields["title"]);
        assert Validate(ps[1].schema, e.fields["location"]);
      }
      if SpaceOk(e) {
        forall i | 0 <= i < |ps| && ps[i].name in e.fields
          ensures Validate(ps[i].schema, e.fields[ps[i].name])
        {
          if i == 0 {
          } else {
            StringSchemaMeaning(PackageStructSpace, e.fields["location"]);
          }
        }
      }
    }
  }

  lemma StructureMeaning(d: Json)
    ensures Validate(StructureSchema, d) <==> StructureOk(d)
  {
    var pp := StructureSchema.patternProperties;
    if d.JObject? {
      if Validate(StructureSchema, d) {
        forall k | k in d.fields
          ensures IsStructKey(k) && SpaceOk(d.fields[k])
        {
          assert Covered(StructureSchema, k);
          assert Matches(pp[0].pattern, k);
          SpaceMeaning(d.fields[k]);
        }
      }
      if StructureOk(d) {
        forall k | k in d.fields
          ensures Covered(StructureSchema, k)
        {
          assert Matches(pp[0].pattern, k);
        }
        forall i, k | 0 <= i < |pp| && k in d.fields && Matches(pp[i].pattern, k)
          ensures Validate(pp[i].schema, d.fields[k])
        {
          SpaceMeaning(d.fields[k]);
        }
      }
    }
  }

  lemma PackageMeaning(e: Json)
    ensures Validate(PackageSchema, e) <==> PackageOk(e)
  {
    var ps := PackageSchema.properties;
    if e.JObject? {
      if Validate(PackageSchema, e) {
        assert PackageSchema.required[0] in e.fields;
        assert PackageSchema.required[1] in e.fields;
        assert PackageSchema.required[2] in e.fields;
        assert Validate(ps[0].schema, e.fields["version"]);
        assert Validate(ps[1].schema, e.fields["name"]);
        assert Validate(ps[2].schema, e.fields["description"]);
        if "dependencies" in e.fields {
          assert Validate(ps[3].schema, e.fields["dependencies"]);
          DependenciesMeaning(e.fields["dependencies"]);
        }
        if "structure" in e.fields {
          assert Validate(ps[4].schema, e.fields["structure"]);
          StructureMeaning(e.fields["structure"]);
        }
      }
      if PackageOk(e) {
        forall i | 0 <= i < |ps| && ps[i].name in e.fields
          ensures Validate(ps[i].schema, e.fields[ps[i].name])
        {
          if i == 3 {
            DependenciesMeaning(e.fields["dependencies"]);
          } else if i == 4 {
            StructureMeaning(e.fields["structure"]);
          }
        }
      }
    }
  }

  lemma PackagesMeaning(p: Json)
    ensures Validate(PackagesSchema, p) <==> PackagesOk(p)
  {
    var pp := PackagesSchema.patternProperties;
    if p.JObject? {
      if Validate(PackagesSchema, p) {
        forall k | k in p.fields
          ensures IsPackageId(k) && PackageOk(p.fields[k])
        {
          assert Covered(PackagesSchema, k);
          assert Matches(pp[0].pattern, k);
          PackageMeaning(p.fields[k]);
        }
      }
      if PackagesOk(p) {
        forall k | k in p.fields
          ensures Covered(PackagesSchema, k)
        {
          assert Matches(pp[0].pattern, k);
        }
        forall i, k | 0 <= i < |pp| && k in p.fields && Matches(pp[i].pattern, k)
          ensures Validate(pp[i].schema, p.fields[k])
        {
          PackageMeaning(p.fields[k]);
        }
      }
    }
  }

  /** Validating against `dochubYaml` means exactly `ManifestOk`. */
  lemma ManifestMeaning(j: Json)
    ensures Validate(DochubYamlSchema, j) <==> ManifestOk(j)
  {
    var ps := DochubYamlSchema.properties;
    if j.JObject? {
      if Validate(DochubYamlSchema, j) {
        assert DochubYamlSchema.required[0] in j.fields;
        assert Validate(ps[0].schema, j.fields["$package"]);
        PackagesMeaning(j.fields["$package"]);
      }
      if ManifestOk(j) {
        PackagesMeaning(j.fields["$package"]);
        forall i | 0 <= i < |ps| && ps[i].name in j.fields
          ensures Validate(ps[i].schema, j.fields[ps[i].name])
        {
        }
      }
    }
  }

  // ---------------------------------------------------------------------------
  // Consequences for manifests.

  /** The root must hold `$package`; without it nothing validates. */
  lemma RootRequiresPackage(j: Json)
    requires j.JObject? && "$package" !in j.fields
    ensures !Validate(DochubYamlSchema, j)
  {
    ManifestMeaning(j);
  }

  /** Root keys other than `$package` are not restricted: adding or replacing one keeps a manifest valid. */
  lemma RootKeysUnrestricted(j: Json, k: string, v: Json)
    requires Validate(DochubYamlSchema, j)
    requires k != "$package"
    ensures Validate(DochubYamlSchema, JObject(j.fields[k := v]))
  {
    ManifestMeaning(j);
    ManifestMeaning(JObject(j.fields[k := v]));
  }

  /** Every key under `$package` is a package ID; any other key is rejected. */
  lemma PackageKeysAreIds(p: Json, k: string)
    requires p.JObject? && k in p.fields && !IsPackageId(k)
    ensures !Validate(PackagesSchema, p)
  {
    PackagesMeaning(p);
  }

  /** A declared package has a version, a name and a description, each matching its pattern. */
  lemma PackageRequiredFields(e: Json)
    requires Validate(PackageSchema, e)
    ensures e.JObject?
    ensures "version" in e.fields && e.fields["version"].JString? && IsVersion(e.fields["version"].str)
    ensures "name" in e.fields && e.fields["name"].JString? && IsName(e.fields["name"].str)
    ensures "description" in e.fields && e.fields["description"].JString?
    ensures IsDescription(e.fields["description"].str)
  {
    PackageMeaning(e);
  }

  /** A structure key spanning two lines is matched by no pattern and so is rejected. */
  lemma StructureKeyIsOneLine(d: Json, k: string, i: nat)
    requires d.JObject? && k in d.fields
    requires i < |k| && IsLineTerminator(k[i])
    ensures !Validate(StructureSchema, d)
  {
    StructureMeaning(d);
  }

  /** A concrete valid manifest: one package with a dependency and a structure entry. */
  lemma SampleManifestIsValid()
    ensures Validate(DochubYamlSchema, JObject(map["$package" := SamplePackages(), "docs" := JNull]))
  {
    SamplePackageOk();
    var pkgs := SamplePackages();
    assert PackagesOk(pkgs);
    ManifestMeaning(JObject(map["$package" := pkgs, "docs" := JNull]));
  }

  function SamplePackages(): Json
  {
    JObject(map["dochub" := SamplePackage()])
  }

  function SamplePackage(): Json
  {
    JObject(map[
      "version" := JString("1.0.0"),
      "name" := JString("DocHub"),
      "description" := JString("Docs"),
      "dependencies" := JObject(map["core" := JString("^1.0")]),
      "structure" := JObject(map["docs" := SampleSpace()])])
  }

  function SampleSpace(): Json
  {
    JObject(map["title" := JString("Docs"), "location" := JString("/docs/arch")])
  }

  lemma SampleSpaceOk()
    ensures SpaceOk(SampleSpace())
  {
    assert "/docs/arch" == "/" + Join(["docs", "arch"], '/');
    StructSpaceFromSegments(["docs", "arch"]);
  }

  lemma SamplePackageOk()
    ensures PackageOk(SamplePackage())
  {
    SampleStructureOk();
    SampleDependenciesOk();
    SampleVersionOk();
    assert IsName("DocHub");
    assert IsDescription("Docs");
  }

  lemma SampleStructureOk()
    ensures StructureOk(JObject(map["docs" := SampleSpace()]))
  {
    SampleSpaceOk();
  }

  lemma SampleDependenciesOk()
    ensures DependenciesOk(JObject(map["core" := JString("^1.0")]))
  {
    assert IsPackageId("core");
    assert IsRequest("^1.0");
  }

  lemma SampleVersionOk()
    ensures IsVersion("1.0.0")
  {
    assert "1.0.0" == "1" + "." + "0" + "." + "0";
    VersionFromGroups("1", "0", "0");
  }
}
