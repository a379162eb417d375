/**
 * The project catalog the laptop screen pages through (src/data/projects.ts).
 * Only its length matters to the view state: the carousel index wraps modulo it.
 */
module Catalog {

  datatype Project = Project(
    id: string,
    title: string,
    description: string,
    tech: seq<string>,
    screenshot: string,
    repoUrl: string)

  const Projects: seq<Project> := [
    Project("neon-breacher", "Neon Breacher",
      "Zero-Asset Arcade Shooter with high-intensity particle effects.",
      ["React", "Three.js", "Canvas"], "/projects/neonbreacher.jpg",
      "https://github.com/Manuele-T/neon-breacher"),
    Project("codewise-ai-reviewer", "Codewise AI Reviewer",
      "AI-powered code review assistant providing detailed code feedback.",
      ["AI", "GitHub Actions", "Automation"], "/projects/codewise.jpg",
      "https://github.com/Manuele-T/codewise-ai-reviewer"),
    Project("ai-marketing-agent", "AI Marketing Agent",
      "Autonomous agent designed to optimize marketing campaigns and content generation.",
      ["Python", "LLM", "LangChain"], "/projects/marketingagent.jpg",
      "https://github.com/Manuele-T/AI_Marketing_Agent"),
    Project("local-mcp-file-analysis", "Local MCP File Analysis",
      "Model Context Protocol server for secure local file system analysis.",
      ["TypeScript", "MCP", "Node.js"], "/projects/mcpfileanalysis.jpg",
      "https://github.com/Manuele-T/Local-MCP-File-Analysis-Server"),
    Project("n8n-ai-news", "N8N AI News",
      "Automated news aggregation and summarization workflow built with n8n.",
      ["n8n", "AI", "Webhooks"], "/projects/n8nainews.jpg",
      "https://github.com/Manuele-T/N8N_AI_News"),
    Project("recipes-chatbot", "Recipes Chatbot",
      "Interactive AI chatbot for recipe discovery and cooking assistance.",
      ["React", "OpenAI", "Tailwind"], "/projects/recipeschatbot.jpg",
      "https://github.com/Manuele-T/Recipes_Chatbot")
  ]

  /** `projects.length`, the modulus of the carousel. */
  const N: nat := |Projects|
}
