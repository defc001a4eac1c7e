/** Shared/Services/CredentialsFileReader.swift: the OAuth access token in
    `~/.claude/.credentials.json`. */
module CredentialsFileReader {
  import opened Wrappers
  import opened Json

  /** `readToken()`: `claudeAiOauth.accessToken`, when it is a non-empty string. */
  function ReadToken(file: FileRead): (r: Option<string>)
    ensures r.Some? <==>
      && file.JsonFile?
      && Member(file.value, "claudeAiOauth").Some?
      && Member(Member(file.value, "claudeAiOauth").value, "accessToken").Some?
      && Member(Member(file.value, "claudeAiOauth").value, "accessToken").value.JString?
      && Member(Member(file.value, "claudeAiOauth").value, "accessToken").value.s != ""
    ensures r.Some? ==> r.value == Member(Member(file.value, "claudeAiOauth").value, "accessToken").value.s
  {
    match file
    case JsonFile(j) =>
      (match Member(j, "claudeAiOauth")
       case Some(oauth) =>
         (match Member(oauth, "accessToken")
          case Some(JString(token)) => if token != "" then Some(token) else None
          case _ => None)
       case None => None)
    case _ => None
  }

  /** `tokenExists()`: only whether the file is there. */
  function TokenExists(file: FileRead): bool {
    !file.NoFile?
  }

  /** A token is read exactly from a credentials object carrying a non-empty
      access token; a missing file, text that is not JSON, a missing or empty
      token all give nil. */
  lemma ReadTokenCases(token: string, other: map<string, Json>)
    ensures ReadToken(NoFile) == None && ReadToken(NotJson) == None
    ensures ReadToken(JsonFile(JObject(other["claudeAiOauth" := JObject(map["accessToken" := JString(token)])])))
            == (if token == "" then None else Some(token))
    ensures ReadToken(JsonFile(JObject(other["claudeAiOauth" := JObject(map[])]))) == None
  {
  }

  /** Existence does not look at the contents: any file present counts, and a
      readable token implies the file exists. */
  lemma TokenExistsIgnoresContents(a: FileRead, b: FileRead)
    requires !a.NoFile? && !b.NoFile?
    ensures TokenExists(a) == TokenExists(b) == true
    ensures ReadToken(a).Some? ==> TokenExists(a)
  {
  }
}
