/**
 * The ordered skill dictionaries of the keyword extractor and of the quick listing
 * scorer, as the regex fragments they are written as in the source (a `\\.` is an
 * escaped dot, `.?` an optional separator). Order matters: extraction reports hits
 * in dictionary order.
 */
module SkillDictionary {

  /** Programming Languages */
  const ProgrammingLanguages: seq<string> := [
    "javascript", "typescript", "python", "java", "c#", "c\\+\\+", "go", "rust", "php",
    "kotlin", "swift", "powershell"
  ]

  /** Frontend Frameworks & Libraries */
  const FrontendFrameworksLibraries: seq<string> := [
    "react", "angular", "vue", "vue\\.js", "next\\.js", "nuxt", "nuxt\\.js", "svelte", "html",
    "css", "tailwind", "bootstrap", "sass", "scss", "reactjs", "angularjs"
  ]

  /** Design Tools */
  const DesignTools: seq<string> := [
    "figma", "sketch", "adobe xd", "invision", "zeplin", "framer"
  ]

  /** UX/UI Design (written here in two parts, the vocabulary and the methods) */
  const UXUIDesign: seq<string> := UXUIBasics + UXUIMethods

  const UXUIBasics: seq<string> := [
    "ux", "ui", "ux/ui", "user experience", "user interface", "wireframe", "wireframes",
    "prototype", "prototyping", "interaction design", "visual design", "design system",
    "design systems", "design guideline", "design guidelines", "user research"
  ]

  const UXUIMethods: seq<string> := [
    "usability testing", "user testing", "a/b testing", "a/b.?test", "user flow", "user flows",
    "user journey", "customer journey", "information architecture", "responsive design",
    "mobile.?first", "accessibility", "wcag", "flows", "interaktioner", "interactions",
    "design trends", "best practices", "brand.?oplevelse", "brugeroplevelse",
    "brugercentreret", "pixel.?perfect", "high.?fidelity", "low.?fidelity", "mockup",
    "mockups", "design.?thinking", "user.?centric", "customer.?centric"
  ]

  /** Backend & Frameworks */
  const BackendFrameworks: seq<string> := [
    "node\\.js", "express", "django", "flask", "spring", "\\.net", "\\.net core", "net core",
    "asp\\.net", "jakarta ee", "j2ee"
  ]

  /** Databases & Search */
  const DatabasesSearch: seq<string> := [
    "sql", "t-sql", "mongodb", "postgresql", "mysql", "redis", "elasticsearch", "solr",
    "opensearch", "microsoft sql server", "mssql", "sql server", "oracle",
    "database architecture", "database modeling", "data modeling", "data quality"
  ]

  /** Testing */
  const Testing: seq<string> := [
    "cypress", "unit test", "integration test", "system test", "quality assurance", "qa"
  ]

  /** DevOps & Infrastructure */
  const DevOpsInfrastructure: seq<string> := [
    "docker", "kubernetes", "k8s", "linux", "windows", "container", "containerization",
    "infrastructure as code", "iac", "terraform", "ansible", "ci/cd", "gitops", "pipelines",
    "github actions", "gitlab ci", "monitoring", "high availability", "scalability", "devops"
  ]

  /** Cloud & Tools */
  const CloudTools: seq<string> := [
    "aws", "s3", "cloudfront", "azure", "gcp", "cloud", "saas", "paas", "git", "github",
    "gitlab", "bitbucket", "jenkins", "azure devops", "octopus", "over.?the.?air", "ota"
  ]

  /** Methodologies & Practices */
  const MethodologiesPractices: seq<string> := [
    "agile", "scrum", "kanban", "lean", "design thinking", "user.?centered", "user.?centric",
    "test.?driven", "tdd", "continuous integration", "continuous deployment",
    "automated tests", "automation", "prompting", "full.?stack", "full stack"
  ]

  /** APIs & Architecture */
  const APIsArchitecture: seq<string> := [
    "rest api", "graphql", "microservices", "api", "restful", "api integration",
    "distribuerede systemer", "distributed systems", "enterprise architecture", "edi",
    "peppol", "nemhandel", "togaf", "migration", "rehost", "replatform", "refactor"
  ]

  /** Security & Data */
  const SecurityData: seq<string> := [
    "cybersecurity", "cyber security", "sikkerhed", "security", "security-by-design",
    "adgangsstyring", "authentication", "machine learning", "ml", "ai", "sprogmodeller", "etl",
    "data integration", "data.?centric"
  ]

  /** CMS & Platforms */
  const CMSPlatforms: seq<string> := [
    "open source", "wordpress", "contentful", "sanity", "strapi", "headless cms", "umbraco",
    "sitecore", "salesforce", "sharepoint", "dynamics crm", "business central", "erp"
  ]

  /** Other Technologies */
  const OtherTechnologies: seq<string> := [
    "mainframe", "batch jobs", "business process automation", "web components"
  ]

  /** The technical dictionary of the job analyser, in source order. */
  const TechnicalSkills: seq<string> :=
    ProgrammingLanguages
    + FrontendFrameworksLibraries
    + DesignTools
    + UXUIDesign
    + BackendFrameworks
    + DatabasesSearch
    + Testing
    + DevOpsInfrastructure
    + CloudTools
    + MethodologiesPractices
    + APIsArchitecture
    + SecurityData
    + CMSPlatforms
    + OtherTechnologies

  /** General soft skills */
  const SoftGeneralSoftSkills: seq<string> := [
    "communication", "teamwork", "problem.?solving", "leadership", "analytical", "creative",
    "adaptable", "detail.?oriented", "self.?motivated", "collaborative", "time.?management",
    "critical.?thinking", "independent", "proactive", "engagement", "dedication", "drive",
    "structured", "pixel.?perfect", "empathy", "curiosity", "stakeholder management",
    "feedback", "coaching", "quality.?conscious", "pride", "humor", "self.?directed"
  ]

  /** Danish soft skills */
  const SoftDanishSoftSkills: seq<string> := [
    "metodisk", "detailorienteret", "nysgerrig", "initiativrig", "analytisk", "selvstændig",
    "samarbejde", "faglig sparring", "videndeling", "fleksibel", "uformel", "proaktiv",
    "ambitiøs", "kvalitetsbevidst", "ansvarsfuld", "selvkørende", "struktureret", "logisk"
  ]

  /** The soft-skill dictionary of the job analyser, in source order. */
  const SoftSkills: seq<string> :=
    SoftGeneralSoftSkills
    + SoftDanishSoftSkills

  /** Programming languages */
  const QuickProgrammingLanguages: seq<string> := [
    "javascript", "typescript", "python", "java", "c#", "c\\+\\+", "go", "rust", "php",
    "swift", "kotlin", "scala", "ruby"
  ]

  /** Frontend */
  const QuickFrontend: seq<string> := [
    "react", "angular", "vue", "next\\.js", "nuxt", "svelte", "html", "css", "sass", "less",
    "tailwind", "bootstrap"
  ]

  /** Backend */
  const QuickBackend: seq<string> := [
    "node\\.js", "\\.net", "asp\\.net", "express", "nestjs", "django", "flask", "spring",
    "laravel"
  ]

  /** Databases */
  const QuickDatabases: seq<string> := [
    "sql", "mysql", "mongodb", "postgresql", "redis", "elasticsearch", "dynamodb", "cassandra",
    "oracle"
  ]

  /** Cloud & DevOps */
  const QuickCloudDevOps: seq<string> := [
    "docker", "kubernetes", "azure", "aws", "gcp", "terraform", "ansible", "jenkins", "gitlab",
    "github actions"
  ]

  /** Tools & Methodologies */
  const QuickToolsMethodologies: seq<string> := [
    "git", "scrum", "agile", "jira", "confluence", "ci\\/cd", "rest", "graphql", "api",
    "microservices"
  ]

  /** Testing */
  const QuickTesting: seq<string> := [
    "jest", "cypress", "selenium", "unit testing", "integration testing", "tdd"
  ]

  /** The reduced technical dictionary the listing scorer uses, in source order. */
  const QuickSkills: seq<string> :=
    QuickProgrammingLanguages
    + QuickFrontend
    + QuickBackend
    + QuickDatabases
    + QuickCloudDevOps
    + QuickToolsMethodologies
    + QuickTesting

}
