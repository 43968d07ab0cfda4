/** The provider tables of the base sources, in the order of the source (`DUSTINWIN_PROVIDERS_MAP`, `LHIE1_PROVIDERS_MAP`,
    src/config_builder.py). */
module RuleTables {
  import opened RuleList

  const DUSTINWIN_1: seq<Provider> := [
    Provider("private", "DIRECT", false, false),
    Provider("ads", "AdBlock", false, false),
    Provider("applications", "DIRECT", false, false),
    Provider("microsoft-cn", "Microsoft", false, false),
    Provider("apple-cn", "Apple", false, false),
    Provider("google", "Google", false, false),
    Provider("google-cn", "Google", false, false),
    Provider("games-cn", "Steam", false, false),
    Provider("games", "Steam", false, false),
    Provider("netflix", "Netflix", false, false)]

  const DUSTINWIN_2: seq<Provider> := [
    Provider("disney", "Disney Plus", false, false),
    Provider("max", "HBO Max", false, false),
    Provider("primevideo", "Global TV", false, false),
    Provider("appletv", "Apple TV", false, false),
    Provider("youtube", "Youtube", false, false),
    Provider("tiktok", "TikTok", false, false),
    Provider("bilibili", "Bilibili", false, false),
    Provider("spotify", "Spotify", false, false),
    Provider("media", "Global TV", false, false),
    Provider("ai", "AI Suite", false, false)]

  const DUSTINWIN_3: seq<Provider> := [
    Provider("networktest", "Speedtest", false, false),
    Provider("tld-proxy", "Proxy", false, false),
    Provider("gfw", "Proxy", false, false),
    Provider("proxy", "Proxy", false, false),
    Provider("cn", "Domestic", false, false),
    Provider("privateip", "DIRECT", false, true),
    Provider("cnip", "Domestic", false, true),
    Provider("telegramip", "Telegram", false, true),
    Provider("netflixip", "Netflix", false, true),
    Provider("mediaip", "Global TV", false, true)]

  const DUSTINWIN: seq<Provider> := DUSTINWIN_1 + DUSTINWIN_2 + DUSTINWIN_3

  const LHIE1_1: seq<Provider> := [
    Provider("AdBlock", "AdBlock", false, false),
    Provider("HTTPDNS", "HTTPDNS", false, false),
    Provider("Special", "DIRECT", false, false),
    Provider("PROXY", "Proxy", false, false),
    Provider("Domestic", "Domestic", false, false),
    Provider("Domestic IPs", "Domestic", false, false),
    Provider("LAN", "DIRECT", false, false),
    Provider("Netflix", "Netflix", false, false),
    Provider("Spotify", "Spotify", false, false),
    Provider("YouTube", "Youtube", false, false)]

  const LHIE1_2: seq<Provider> := [
    Provider("Max", "HBO Max", false, false),
    Provider("Bilibili", "Bilibili", false, false),
    Provider("IQ", "CN Mainland TV", false, false),
    Provider("IQIYI", "CN Mainland TV", false, false),
    Provider("Letv", "CN Mainland TV", false, false),
    Provider("Netease Music", "CN Mainland TV", false, false),
    Provider("Tencent Video", "CN Mainland TV", false, false),
    Provider("Youku", "CN Mainland TV", false, false),
    Provider("WeTV", "Global TV", false, false),
    Provider("ABC", "Global TV", false, false)]

  const LHIE1_3: seq<Provider> := [
    Provider("Abema TV", "Asian TV", false, false),
    Provider("Amazon", "Global TV", false, false),
    Provider("Apple Music", "Apple", false, false),
    Provider("Apple News", "Apple", false, false),
    Provider("Apple TV", "Apple TV", false, false),
    Provider("Bahamut", "Bahamut", false, false),
    Provider("BBC iPlayer", "Global TV", false, false),
    Provider("DAZN", "DAZN", false, false),
    Provider("Discovery Plus", "Discovery Plus", false, false),
    Provider("Disney Plus", "Disney Plus", false, false)]

  const LHIE1_4: seq<Provider> := [
    Provider("DMM", "Asian TV", false, false),
    Provider("encoreTVB", "Global TV", false, false),
    Provider("F1 TV", "Global TV", false, false),
    Provider("Fox Now", "Global TV", false, false),
    Provider("Fox+", "Asian TV", false, false),
    Provider("Hulu Japan", "Asian TV", false, false),
    Provider("Hulu", "Global TV", false, false),
    Provider("JOOX", "Asian TV", false, false),
    Provider("KKBOX", "Asian TV", false, false),
    Provider("KKTV", "Asian TV", false, false)]

  const LHIE1_5: seq<Provider> := [
    Provider("Line TV", "Asian TV", false, false),
    Provider("myTV SUPER", "Asian TV", false, false),
    Provider("Niconico", "Asian TV", false, false),
    Provider("Pandora", "Global TV", false, false),
    Provider("PBS", "Global TV", false, false),
    Provider("Pornhub", "Pornhub", false, false),
    Provider("Soundcloud", "Global TV", false, false),
    Provider("ViuTV", "Asian TV", false, false),
    Provider("Telegram", "Telegram", false, false),
    Provider("Crypto", "Crypto", false, false)]

  const LHIE1_6: seq<Provider> := [
    Provider("Discord", "Discord", false, false),
    Provider("Steam", "Steam", false, false),
    Provider("TikTok", "TikTok", false, false),
    Provider("Speedtest", "Speedtest", false, false),
    Provider("PayPal", "PayPal", false, false),
    Provider("Microsoft", "Microsoft", false, false),
    Provider("AI Suite", "AI Suite", false, false),
    Provider("Apple", "Apple", false, false),
    Provider("Google FCM", "Google", false, false),
    Provider("Scholar", "Scholar", false, false)]

  const LHIE1_7: seq<Provider> := [
    Provider("miHoYo", "miHoYo", false, false)]

  const LHIE1: seq<Provider> := LHIE1_1 + LHIE1_2 + LHIE1_3 + LHIE1_4 + LHIE1_5 + LHIE1_6 + LHIE1_7
}
