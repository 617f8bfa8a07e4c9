/** The welcome document the provider builds before registration
    (client/src/contexts/ChatContext.js, `getWelcomeMessage`): headings,
    bulleted lists and rules chosen by the healthcare context and the
    privacy style. */
module Welcome {
  import opened Text
  import opened Conversation

  datatype ContextCopy = ContextCopy(title: string, description: string,
                                     capabilities: seq<string>, limitations: seq<string>)

  datatype PrivacyCopy = PrivacyCopy(title: string, description: string, details: seq<string>)

  function ContextCopyOf(c: HealthcareContext): ContextCopy {
    match c
    case SymptomChecking => ContextCopy(
      "Symptom Checking Assistant",
      "I'm here to help you understand your symptoms and provide general health guidance. I can help you identify potential causes, suggest when to seek professional care, and offer general wellness advice.",
      ["Assess common symptoms and their possible causes",
       "Provide general health information and education",
       "Suggest when to consult healthcare professionals",
       "Offer preventive care and wellness tips"],
      ["I cannot provide medical diagnosis",
       "I cannot prescribe medications",
       "Always consult healthcare professionals for specific medical concerns"])
    case MentalHealthSupport => ContextCopy(
      "Mental Health Support Assistant",
      "I'm here to provide emotional support and help you explore coping strategies. I can offer a listening ear, suggest stress management techniques, and help you identify when professional help might be beneficial.",
      ["Provide emotional support and active listening",
       "Suggest coping strategies and stress management techniques",
       "Help identify when professional mental health care might be needed",
       "Offer general wellness and self-care advice"],
      ["I am not a replacement for professional therapy",
       "I cannot provide clinical mental health diagnosis",
       "For crisis situations, please contact emergency services or crisis hotlines"])
    case ChronicCareManagement => ContextCopy(
      "Chronic Care Management Assistant",
      "I'm here to support you in managing your chronic health conditions. I can help with education about your conditions, suggest lifestyle modifications, and assist with tracking strategies.",
      ["Provide education about chronic conditions",
       "Suggest lifestyle modifications and self-care strategies",
       "Help with medication adherence and tracking",
       "Support communication with healthcare providers"],
      ["I cannot replace your doctor's treatment plan",
       "Always follow your healthcare provider's advice",
       "I cannot adjust medications or treatment protocols"])
  }

  function PrivacyCopyOf(p: PrivacyStyle): PrivacyCopy {
    match p
    case Minimal => PrivacyCopy(
      "Minimal Privacy Disclosure",
      "We maintain minimal data collection practices. Your conversations are private and secure, and we do not collect personal identifying information.",
      ["No personal identifiers are collected",
       "Conversation data is used only for service improvement",
       "Data is stored securely and encrypted"])
    case Contextual => PrivacyCopy(
      "Contextual Privacy Disclosure",
      "We collect conversation data to provide personalized health guidance. Sensitive information is handled with extra care and only used for providing relevant health support.",
      ["Conversation data helps provide better health guidance",
       "Sensitive topics trigger additional privacy protections",
       "Data is anonymized and used only for service improvement"])
    case Progressive => PrivacyCopy(
      "Progressive Privacy Disclosure",
      "We provide comprehensive privacy information to ensure transparency. Your data is encrypted, anonymized, and never shared with third parties.",
      ["Detailed privacy information is available throughout our conversation",
       "Data is encrypted and anonymized",
       "No data is shared with third parties",
       "You can request data deletion at any time"])
  }

  /** The lines `• ${item}` of a bulleted list. */
  function BulletLines(items: seq<string>): (r: seq<string>)
    ensures |r| == |items|
    ensures forall i :: 0 <= i < |items| ==> r[i] == "\U{2022} " + items[i]
  {
    if items == [] then [] else ["\U{2022} " + items[0]] + BulletLines(items[1..])
  }

  const Title: string := "Welcome to Your Healthcare Assistant"

  const Heading: string := "# " + Title

  const Closing: string := "**Ready to begin?** Please share your health concerns or questions, and I'll do my best to help while respecting your privacy and maintaining appropriate boundaries."

  /** The lines of the template, top to bottom: the heading, the context's
      title, description, capabilities and limitations, a rule, the privacy
      style's title, description and practices, a rule and the call to action. */
  function WelcomeLines(cc: ContextCopy, pc: PrivacyCopy): (r: seq<string>)
    ensures |r| >= 2 && r[0] == Heading
  {
    [Heading, "", "## " + cc.title, "", cc.description, "", "### What I Can Help With:"]
      + BulletLines(cc.capabilities)
      + ["", "### Important Limitations:"]
      + BulletLines(cc.limitations)
      + ["", "---", "", "## " + pc.title, "", pc.description, "", "### Privacy Practices:"]
      + BulletLines(pc.details)
      + ["", "---", "", Closing]
  }

  /** The template before its asterisks are stripped: the lines joined by newlines. */
  function WelcomeText(cc: ContextCopy, pc: PrivacyCopy): string {
    Join(WelcomeLines(cc, pc), '\n')
  }

  /** The welcome text the provider stores (`cleanWelcome`): the template
      with every run of `*` removed. */
  function CleanWelcome(cc: ContextCopy, pc: PrivacyCopy): string {
    StripAsterisks(WelcomeText(cc, pc))
  }

  /** The stored welcome text contains no `*` and still opens with the
      level-one heading line. */
  lemma CleanWelcomeShape(cc: ContextCopy, pc: PrivacyCopy)
    ensures forall i :: 0 <= i < |CleanWelcome(cc, pc)| ==> CleanWelcome(cc, pc)[i] != '*'
    ensures Heading + "\n" <= CleanWelcome(cc, pc)
  {
    var lines := WelcomeLines(cc, pc);
    assert WelcomeText(cc, pc) == Heading + "\n" + Join(lines[1..], '\n');
    HeadingSurvives(Join(lines[1..], '\n'));
  }

  /** `getWelcomeMessage(healthcareContext, privacyStyle)`. */
  function Template(c: HealthcareContext, p: PrivacyStyle): string {
    WelcomeText(ContextCopyOf(c), PrivacyCopyOf(p))
  }

  /** The welcome text for a context and a style, as the provider stores it:
      no `*` left, and the first line is the level-one heading. */
  lemma TemplateCleanShape(c: HealthcareContext, p: PrivacyStyle)
    ensures var w := StripAsterisks(Template(c, p));
      && (forall i :: 0 <= i < |w| ==> w[i] != '*')
      && Heading + "\n" <= w
  {
    CleanWelcomeShape(ContextCopyOf(c), PrivacyCopyOf(p));
  }

  lemma HeadingSurvives(body: string)
    ensures Heading + "\n" <= StripAsterisks(Heading + "\n" + body)
  {
    var head := Heading + "\n";
    assert forall i | 0 <= i < |head| :: head[i] != '*';
    StarFreePrefixSurvives(head, body);
  }

  /** A leading stretch without `*` comes through the strip unchanged. */
  lemma StarFreePrefixSurvives(head: string, body: string)
    requires forall i :: 0 <= i < |head| ==> head[i] != '*'
    ensures head <= StripAsterisks(head + body)
  {
    StripAsterisksAppend(head, body);
    StripAsterisksNoStar(head);
  }
}
