/** `IsValidProvider` of domain/oauth.go: the OAuth providers the login accepts. */
module OAuth {

  const ProviderGithub: string := "github"
  const ProviderGoogle: string := "google"

  /** Exactly the two provider names are valid, compared byte for byte. */
  function IsValidProvider(p: string): (valid: bool)
    ensures valid <==> p == ProviderGithub || p == ProviderGoogle
  {
    match p
    case "github" => true
    case "google" => true
    case _ => false
  }

  /** Matching is case-sensitive: capitalised names are refused. */
  lemma CaseSensitive()
    ensures !IsValidProvider("GitHub") && !IsValidProvider("Google")
    ensures IsValidProvider("github") && IsValidProvider("google")
  {
  }
}
