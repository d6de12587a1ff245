/**
 * The configuration fields the core reads (settings.py), with the
 * defaults that file declares. Loading them from the environment is not
 * modelled.
 */
module Config {

  datatype Settings = Settings(
    meetupClientId: string,
    meetupClientSecret: string,
    meetupGraphqlEndpoint: string,
    lumaApiKey: string,
    lumaApiEndpoint: string,
    meetupAuthEndpoint: string,
    meetupTokenEndpoint: string,
    meetupRedirectUri: string)

  const Defaults := Settings(
    "",
    "",
    "https://api.meetup.com/gql-ext",
    "",
    "https://public-api.luma.com/v1",
    "https://secure.meetup.com/oauth2/authorize",
    "https://secure.meetup.com/oauth2/access",
    "http://127-0-0-1.nip.io:8080/auth/meetup/callback")
}
