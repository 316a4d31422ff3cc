/** The manifest `apollo.toml`, held as a document: a map from section name to a
    table, and each table a map from key to string value. The TOML text that the
    `toml` crate renders from it is not modelled. */
module Manifest {
  import opened Wrappers

  type Table = map<string, string>
  type Document = map<string, Table>

  const PackageSection: string := "package"
  const DependenciesSection: string := "dependencies"
  const NameKey: string := "name"
  const VersionKey: string := "version"
  const LibKey: string := "lib"
  const DefaultVersion: string := "v0.1"
  const DefaultLib: string := "init.luna"

  /** The value under `section.key`, if the document has one. */
  function Field(doc: Document, section: string, key: string): Option<string>
  {
    if section in doc && key in doc[section] then Some(doc[section][key]) else None
  }

  /** The document that `new` writes for package `name`. */
  function NewManifest(name: string): (doc: Document)
    ensures doc.Keys == {PackageSection, DependenciesSection}
    ensures doc[PackageSection].Keys == {NameKey, VersionKey, LibKey}
    ensures Field(doc, PackageSection, NameKey) == Some(name)
    ensures Field(doc, PackageSection, VersionKey) == Some(DefaultVersion)
    ensures Field(doc, PackageSection, LibKey) == Some(DefaultLib)
    ensures doc[DependenciesSection] == map[]
  {
    map[PackageSection := map[NameKey := name, VersionKey := DefaultVersion, LibKey := DefaultLib],
        DependenciesSection := map[]]
  }

  /** A fresh manifest records the package name and nothing else varies:
      two fresh manifests are equal exactly when their names are. */
  lemma NewManifestDeterminedByName(a: string, b: string)
    ensures NewManifest(a) == NewManifest(b) <==> a == b
  {
  }
}
