/** Names, states and parsers of the domain layer (internal/domain). */
module Domain {
  newtype byte = x: int | 0 <= x < 256

  type RecordId = string

  datatype AssetFormat = Text | Markdown | Csv | Binary
  datatype AssetState = Uploading | Ready | ParseFailed | UploadFailed
  datatype Operation = RawRead | TextSearchOp | CsvQueryOp | OtherOperation(name: string)
  datatype Visibility = Public | Private | OtherVisibility(name: string)
  datatype PathState = Draft | Enabled | Disabled | OtherState(name: string)
  datatype Mode = Pull | Push | OtherMode(name: string)

  /** The error codes of internal/domain/errors.go that the modelled code returns. */
  datatype Code =
    | InvalidRequest | NotAuthorized | NodeNotFound | InitiatorNotOwned | DestinationMismatch
    | PrincipalNotAuthorized | RouteInvalid | RouteTooLong | AssetUnavailable | QueryInvalid
    | ServiceHopFailed | TransferAlreadyResolved | TransferExpired | NameAlreadyExists
    | ConfigVersionConflict | IdempotencyKeyReused | PayloadTooLarge | StorageProviderError
    | OperationNotAllowed | AssetParseFailed | PathNotFound | PathDisabled

  const MAX_ROUTE_HOPS := 20

  predicate HasPrefix(s: string, prefix: string) {
    prefix <= s
  }

  predicate IsLowerAlnum(c: char) {
    'a' <= c <= 'z' || '0' <= c <= '9'
  }

  /** One to 63 lower-case letters, digits and inner hyphens. */
  predicate IsSlug(s: string) {
    && 1 <= |s| <= 63
    && IsLowerAlnum(s[0]) && IsLowerAlnum(s[|s| - 1])
    && forall i | 0 <= i < |s| :: IsLowerAlnum(s[i]) || s[i] == '-'
  }

  predicate IsBrainId(s: string) {
    HasPrefix(s, "brain.") && IsSlug(s[|"brain."|..])
  }

  predicate IsPathChar(c: char) {
    IsLowerAlnum(c) || c == '/' || c == '_' || c == '-'
  }

  predicate Reserved(path: string, prefix: string) {
    path == prefix || HasPrefix(path, prefix + "/")
  }

  /** `ParseQueryPath` accepts exactly these paths.  Its traversal-segment test is
      subsumed: a dot is not a path character. */
  predicate IsQueryPath(path: string) {
    && |path| >= 2 && path[0] == '/' && IsLowerAlnum(path[1])
    && (forall i | 0 <= i < |path| :: IsPathChar(path[i]))
    && (forall i | 0 <= i < |path| - 1 :: !(path[i] == '/' && path[i + 1] == '/'))
    && path[|path| - 1] != '/'
    && !Reserved(path, "/api") && !Reserved(path, "/q")
    && !Reserved(path, "/healthz") && !Reserved(path, "/readyz")
  }
}
