/** The registry address of a package file: the raw-file root of the project's
    repository followed by `/registry/` and the package name. */
module Registry {

  const RepoLink: string := "https://raw.githubusercontent.com/sty00a4-code/apollo/master"
  const RegistryDir: string := "/registry/"

  /** `package_file_link`: the URL at which the registry serves `package`. */
  function PackageFileLink(package: string): (url: string)
    ensures |url| == |RepoLink| + |RegistryDir| + |package|
    ensures url[..|RepoLink|] == RepoLink
    ensures url[|RepoLink|..|RepoLink| + |RegistryDir|] == RegistryDir
    ensures url[|url| - |package|..] == package
  {
    RepoLink + RegistryDir + package
  }

  /** Distinct packages are served from distinct URLs. */
  lemma PackageFileLinkInjective(a: string, b: string)
    requires PackageFileLink(a) == PackageFileLink(b)
    ensures a == b
  {
  }
}
