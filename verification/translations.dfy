/**
 * The static translation table of the dashboard: one catalog per supported
 * language. Every catalog is an object literal with the same 24 top-level
 * string entries, in the same order, followed by a `sidebar` namespace with
 * the same 9 string entries. The keys are therefore listed once, here, and
 * each language contributes its texts in key order.
 */
module Translations {

  /** The closed set of language codes: 'en' | 'kn' | 'hi' | 'ml' | 'te' | 'ta'. */
  datatype Language = En | Kn | Hi | Ml | Te | Ta

  /** The language a freshly mounted provider starts with ('en'). */
  const DefaultLanguage: Language := En

  /** The name of the one nested namespace of every catalog. */
  const SidebarNamespace: string := "sidebar"

  /** The top-level keys of every catalog, in source order (in three parts, to keep proofs about them small). */
  const TopKeys: seq<string> := TopKeys1 + TopKeys2 + TopKeys3

  /** The first eight top-level keys. */
  const TopKeys1: seq<string> := [
    "welcomeBack",
    "happeningToday",
    "today",
    "viewFullReport",
    "revenueForcast",
    "customerSentiment",
    "inventoryAlert",
    "items"
  ]

  /** The next eight top-level keys. */
  const TopKeys2: seq<string> := [
    "fromLastMonth",
    "businessAdvisor",
    "documentInsights",
    "askAnything",
    "getAdvice",
    "thinking",
    "analyzing",
    "extractInsights"
  ]

  /** The last eight top-level keys. */
  const TopKeys3: seq<string> := [
    "couldNotGenerate",
    "couldNotExtract",
    "addProduct",
    "createCampaign",
    "viewAnalytics",
    "scheduleMeeting",
    "chooseLanguage",
    "yourBusiness"
  ]

  /** The keys of the `sidebar` namespace of every catalog, in source order. */
  const SidebarKeys: seq<string> := [
    "dashboard",
    "products",
    "campaigns",
    "settings",
    "aiIncubator",
    "businessPlatform",
    "darkMode",
    "lightMode",
    "signOut"
  ]

  // the 'en' catalog: lines 8-31, and lines 35-43 for `sidebar`
  const EnTop: seq<string> := [
    "Welcome back",
    "Here's what's happening with",
    "today",
    "View Full Report",
    "Revenue Forecast",
    "Customer Sentiment",
    "Inventory Alert",
    "Items",
    "from last month",
    "Business Advisor",
    "Document Insights",
    "Ask me anything about your business...",
    "Get Advice",
    "Thinking...",
    "Analyzing...",
    "Extract Insights",
    "⚠️ Could not generate advice. Please try again.",
    "⚠️ Could not extract insights. Try again.",
    "Add Product",
    "Create Campaign",
    "View Analytics",
    "Schedule Meeting",
    "Choose Language",
    "your business"
  ]
  const EnSidebar: seq<string> := [
    "Dashboard",
    "Products",
    "Campaigns",
    "Settings",
    "AI Incubator",
    "Business Platform",
    "Dark Mode",
    "Light Mode",
    "Sign Out"
  ]

  // the 'kn' catalog: lines 48-71, and lines 75-83 for `sidebar`
  const KnTop: seq<string> := [
    "ಮತ್ತೆ ಸ್ವಾಗತ",
    "ಇಂದು ನಿಮ್ಮ ವ್ಯಾಪಾರದಲ್ಲಿ ಏನು ನಡೆಯುತ್ತಿದೆ",
    "ಇಂದು",
    "ಸಂಪೂರ್ಣ ವರದಿ ವೀಕ್ಷಿಸಿ",
    "ಆದಾಯ ಮುನ್ಸೂಚನೆ",
    "ಗ್ರಾಹಕರ ಭಾವನೆ",
    "ಸಂಗ್ರಹ ಎಚ್ಚರಿಕೆ",
    "ವಸ್ತುಗಳು",
    "ಕಳೆದ ತಿಂಗಳಿಂದ",
    "ವ್ಯಾಪಾರ ಸಲಹೆಗಾರ",
    "ದಾಖಲೆ ಒಳನೋಟಗಳು",
    "ನಿಮ್ಮ ವ್ಯಾಪಾರದ ಬಗ್ಗೆ ಏನು ಬೇಕಾದರೂ ಕೇಳಿ...",
    "ಸಲಹೆ ಪಡೆಯಿರಿ",
    "ಯೋಚಿಸುತ್ತಿದ್ದೇನೆ...",
    "ವಿಶ್ಲೇಷಿಸುತ್ತಿದ್ದೇನೆ...",
    "ಒಳನೋಟಗಳನ್ನು ಹೊರತೆಗೆಯಿರಿ",
    "⚠️ ಸಲಹೆ ಉತ್ಪಾದಿಸಲು ಸಾಧ್ಯವಾಗಲಿಲ್ಲ. ದಯವಿಟ್ಟು ಮತ್ತೆ ಪ್ರಯತ್ನಿಸಿ.",
    "⚠️ ಒಳನೋಟಗಳನ್ನು ಹೊರತೆಗೆಯಲು ಸಾಧ್ಯವಾಗಲಿಲ್ಲ. ಮತ್ತೆ ಪ್ರಯತ್ನಿಸಿ.",
    "ಉತ್ಪಾದನೆ ಸೇರಿಸಿ",
    "ಪ್ರಚಾರ ರಚಿಸಿ",
    "ವಿಶ್ಲೇಷಣೆ ವೀಕ್ಷಿಸಿ",
    "ಸಭೆ ನಿಗದಿಪಡಿಸಿ",
    "ಭಾಷೆ ಆಯ್ಕೆ ಮಾಡಿ",
    "ನಿಮ್ಮ ವ್ಯಾಪಾರ"
  ]
  const KnSidebar: seq<string> := [
    "ಡ್ಯಾಶ್‌ಬೋರ್ಡ್",
    "ಉತ್ಪಾದನೆಗಳು",
    "ಪ್ರಚಾರಗಳು",
    "ಸೆಟ್ಟಿಂಗ್‌ಗಳು",
    "AI ಇನ್ಕ್ಯುಬೇಟರ್",
    "ವ್ಯಾಪಾರ ವೇದಿಕೆ",
    "ಡಾರ್ಕ್ ಮೋಡ್",
    "ಲೈಟ್ ಮೋಡ್",
    "ಸೈನ್ ಔಟ್"
  ]

  // the 'hi' catalog: lines 88-111, and lines 115-123 for `sidebar`
  const HiTop: seq<string> := [
    "वापस स्वागत है",
    "आज आपके व्यापार के साथ क्या हो रहा है",
    "आज",
    "पूर्ण रिपोर्ट देखें",
    "राजस्व पूर्वानुमान",
    "ग्राहक भावना",
    "इन्वेंटरी अलर्ट",
    "वस्तुएं",
    "पिछले महीने से",
    "व्यापार सलाहकार",
    "दस्तावेज़ अंतर्दृष्टि",
    "अपने व्यापार के बारे में कुछ भी पूछें...",
    "सलाह प्राप्त करें",
    "सोच रहा हूँ...",
    "विश्लेषण कर रहा हूँ...",
    "अंतर्दृष्टि निकालें",
    "⚠️ सलाह उत्पन्न नहीं कर सका। कृपया फिर से प्रयास करें।",
    "⚠️ अंतर्दृष्टि निकाल नहीं सका। फिर से प्रयास करें।",
    "उत्पाद जोड़ें",
    "अभियान बनाएं",
    "विश्लेषण देखें",
    "मीटिंग शेड्यूल करें",
    "भाषा चुनें",
    "आपका व्यापार"
  ]
  const HiSidebar: seq<string> := [
    "डैशबोर्ड",
    "उत्पाद",
    "अभियान",
    "सेटिंग्स",
    "AI इनक्यूबेटर",
    "व्यापार मंच",
    "डार्क मोड",
    "लाइट मोड",
    "साइन आउट"
  ]

  // the 'ml' catalog: lines 128-151, and lines 155-163 for `sidebar`
  const MlTop: seq<string> := [
    "വീണ്ടും സ്വാഗതം",
    "ഇന്ന് നിങ്ങളുടെ ബിസിനസ്സിൽ എന്താണ് സംഭവിക്കുന്നത്",
    "ഇന്ന്",
    "പൂർണ്ണ റിപ്പോർട്ട് കാണുക",
    "വരുമാന പ്രവചനം",
    "ഉപഭോക്തൃ വികാരം",
    "ഇൻവെന്ററി അലർട്ട്",
    "ഇനങ്ങൾ",
    "കഴിഞ്ഞ മാസം മുതൽ",
    "ബിസിനസ് ഉപദേശകൻ",
    "ഡോക്യുമെന്റ് ഇൻസൈറ്റുകൾ",
    "നിങ്ങളുടെ ബിസിനസ്സിനെ കുറിച്ച് എന്തും ചോദിക്കൂ...",
    "ഉപദേശം നേടുക",
    "ചിന്തിക്കുന്നു...",
    "വിശകലനം ചെയ്യുന്നു...",
    "ഇൻസൈറ്റുകൾ എക്‌സ്ട്രാക്റ്റ് ചെയ്യുക",
    "⚠️ ഉപദേശം സൃഷ്ടിക്കാൻ കഴിഞ്ഞില്ല. ദയവായി വീണ്ടും ശ്രമിക്കൂ.",
    "⚠️ ഇൻസൈറ്റുകൾ എക്‌സ്ട്രാക്റ്റ് ചെയ്യാൻ കഴിഞ്ഞില്ല. വീണ്ടും ശ്രമിക്കൂ.",
    "ഉൽപ്പന്നം ചേർക്കുക",
    "കാമ്പയിൻ സൃഷ്ടിക്കുക",
    "അനലിറ്റിക്സ് കാണുക",
    "മീറ്റിംഗ് ഷെഡ്യൂൾ ചെയ്യുക",
    "ഭാഷ തിരഞ്ഞെടുക്കുക",
    "നിങ്ങളുടെ ബിസിനസ്സ്"
  ]
  const MlSidebar: seq<string> := [
    "ഡാഷ്‌ബോർഡ്",
    "ഉൽപ്പന്നങ്ങൾ",
    "കാമ്പയിനുകൾ",
    "സെറ്റിംഗ്സ്",
    "AI ഇൻക്യൂബേറ്റർ",
    "ബിസിനസ് പ്ലാറ്റ്ഫോം",
    "ഡാർക്ക് മോഡ്",
    "ലൈറ്റ് മോഡ്",
    "സൈൻ ഔട്ട്"
  ]

  // the 'te' catalog: lines 168-191, and lines 195-203 for `sidebar`
  const TeTop: seq<string> := [
    "మళ్లీ స్వాగతం",
    "ఈరోజు మీ వ్యాపారంలో ఏమి జరుగుతోంది",
    "ఈరోజు",
    "పూర్తి నివేదిక చూడండి",
    "ఆదాయ అంచనా",
    "కస్టమర్ సెంటిమెంట్",
    "ఇన్వెంటరీ అలర్ట్",
    "వస్తువులు",
    "గత నెల నుండి",
    "వ్యాపార సలహాదారు",
    "డాక్యుమెంట్ ఇన్‌సైట్స్",
    "మీ వ్యాపారం గురించి ఏదైనా అడగండి...",
    "సలహా పొందండి",
    "ఆలోచిస్తున్నాను...",
    "విశ్లేషిస్తున్నాను...",
    "ఇన్‌సైట్స్ తీయండి",
    "⚠️ సలహా రూపొందించలేకపోయాను. దయచేసి మళ్లీ ప్రయత్నించండి.",
    "⚠️ ఇన్‌సైట్స్ తీయలేకపోయాను. మళ్లీ ప్రయత్నించండి.",
    "ఉత్పత్తి జోడించండి",
    "ప్రచారం సృష్టించండి",
    "అనలిటిక్స్ చూడండి",
    "మీటింగ్ షెడ్యూల్ చేయండి",
    "భాష ఎంచుకోండి",
    "మీ వ్యాపారం"
  ]
  const TeSidebar: seq<string> := [
    "డ్యాష్‌బోర్డ్",
    "ఉత్పత్తులు",
    "ప్రచారాలు",
    "సెట్టింగులు",
    "AI ఇంక్యుబేటర్",
    "వ్యాపార వేదిక",
    "డార్క్ మోడ్",
    "లైట్ మోడ్",
    "సైన్ అవుట్"
  ]

  // the 'ta' catalog: lines 208-231, and lines 235-243 for `sidebar`
  const TaTop: seq<string> := [
    "மீண்டும் வரவேற்கிறோம்",
    "இன்று உங்கள் வணிகத்தில் என்ன நடக்கிறது",
    "இன்று",
    "முழு அறிக்கையைப் பார்க்கவும்",
    "வருவாய் முன்னறிவிப்பு",
    "வாடிக்கையாளர் உணர்வு",
    "சரக்கு எச்சரிக்கை",
    "பொருட்கள்",
    "கடந்த மாதத்திலிருந்து",
    "வணிக ஆலோசகர்",
    "ஆவண நுண்ணறிவு",
    "உங்கள் வணிகத்தைப் பற்றி எதையும் கேளுங்கள்...",
    "ஆலோசனை பெறுங்கள்",
    "சிந்தித்துக்கொண்டிருக்கிறேன்...",
    "பகுப்பாய்வு செய்கிறேன்...",
    "நுண்ணறிவுகளைப் பிரித்தெடுக்கவும்",
    "⚠️ ஆலோசனையை உருவாக்க முடியவில்லை. மீண்டும் முயற்சிக்கவும்.",
    "⚠️ நுண்ணறிவுகளைப் பிரித்தெடுக்க முடியவில்லை. மீண்டும் முயற்சிக்கவும்.",
    "தயாரிப்பு சேர்க்கவும்",
    "பிரச்சாரத்தை உருவாக்கவும்",
    "பகுப்பாய்வைப் பார்க்கவும்",
    "சந்திப்பை திட்டமிடவும்",
    "மொழியைத் தேர்ந்தெடுக்கவும்",
    "உங்கள் வணிகம்"
  ]
  const TaSidebar: seq<string> := [
    "டாஷ்போர்டு",
    "தயாரிப்புகள்",
    "பிரச்சாரங்கள்",
    "அமைப்புகள்",
    "AI இன்க்யூபேட்டர்",
    "வணிக தளம்",
    "இருண்ட பயன்முறை",
    "வெளிச்ச பயன்முறை",
    "வெளியேறு"
  ]

  /** The top-level texts of a language, one per key of TopKeys. */
  function TopTexts(lang: Language): (texts: seq<string>)
    ensures |texts| == |TopKeys|
  {
    match lang
    case En => EnTop
    case Kn => KnTop
    case Hi => HiTop
    case Ml => MlTop
    case Te => TeTop
    case Ta => TaTop
  }

  /** The `sidebar` texts of a language, one per key of SidebarKeys. */
  function SidebarTexts(lang: Language): (texts: seq<string>)
    ensures |texts| == |SidebarKeys|
  {
    match lang
    case En => EnSidebar
    case Kn => KnSidebar
    case Hi => HiSidebar
    case Ml => MlSidebar
    case Te => TeSidebar
    case Ta => TaSidebar
  }

  // ------------------------------------------------------------ key facts

  predicate Distinct(keys: seq<string>)
  {
    forall i, j :: 0 <= i < j < |keys| ==> keys[i] != keys[j]
  }

  predicate Disjoint(a: seq<string>, b: seq<string>)
  {
    forall i, j :: 0 <= i < |a| && 0 <= j < |b| ==> a[i] != b[j]
  }

  predicate Undotted(keys: seq<string>)
  {
    forall i :: 0 <= i < |keys| ==> '.' !in keys[i]
  }

  lemma DistinctAppend(a: seq<string>, b: seq<string>)
    requires Distinct(a) && Distinct(b) && Disjoint(a, b)
    ensures Distinct(a + b)
  {
  }

  lemma DisjointAppend(a: seq<string>, b: seq<string>, c: seq<string>)
    requires Disjoint(a, c) && Disjoint(b, c)
    ensures Disjoint(a + b, c)
  {
  }

  lemma UndottedAppend(a: seq<string>, b: seq<string>)
    requires Undotted(a) && Undotted(b)
    ensures Undotted(a + b)
  {
  }

  lemma TopKeysPartsDistinct()
    ensures Distinct(TopKeys1) && Distinct(TopKeys2) && Distinct(TopKeys3)
  {
  }

  lemma TopKeysPartsDisjoint()
    ensures Disjoint(TopKeys1, TopKeys2) && Disjoint(TopKeys1, TopKeys3) && Disjoint(TopKeys2, TopKeys3)
  {
  }

  /** No key is repeated among the top-level entries. */
  lemma TopKeysDistinct()
    ensures Distinct(TopKeys)
  {
    TopKeysPartsDistinct();
    TopKeysPartsDisjoint();
    DistinctAppend(TopKeys1, TopKeys2);
    DisjointAppend(TopKeys1, TopKeys2, TopKeys3);
    DistinctAppend(TopKeys1 + TopKeys2, TopKeys3);
  }

  /** No key is repeated in the `sidebar` namespace. */
  lemma SidebarKeysDistinct()
    ensures Distinct(SidebarKeys)
  {
  }

  lemma TopKeys1Undotted()
    ensures Undotted(TopKeys1)
  {
  }

  lemma TopKeys2Undotted()
    ensures Undotted(TopKeys2)
  {
  }

  lemma TopKeys3Undotted()
    ensures Undotted(TopKeys3)
  {
  }

  /** No top-level key contains a dot. */
  lemma TopKeysUndotted()
    ensures Undotted(TopKeys)
  {
    TopKeys1Undotted();
    TopKeys2Undotted();
    TopKeys3Undotted();
    UndottedAppend(TopKeys1, TopKeys2);
    UndottedAppend(TopKeys1 + TopKeys2, TopKeys3);
  }

  /** Neither `sidebar` nor any of its keys contains a dot. */
  lemma SidebarKeysUndotted()
    ensures '.' !in SidebarNamespace && Undotted(SidebarKeys)
  {
  }

  /** The `sidebar` namespace does not clash with a top-level key. */
  lemma SidebarNotTopKey()
    ensures forall i :: 0 <= i < |TopKeys| ==> TopKeys[i] != SidebarNamespace
  {
  }
}
